/**
 * The rule-based summary path of `generate_medical_summary`: the severity
 * rating, the recommendation list, the four keyword tables behind the
 * rule-based narrative, the structured record, and the fixed summary used
 * when assembly fails.
 */
module Summary {
  import opened Text
  import opened IntakeModel
  import Extractor

  // ----- severity -----

  const SEVERE_WORDS: seq<string> :=
    ["chest pain", "difficulty breathing", "severe pain", "blood", "fever over 101", "vomiting"]
  const MILD_WORDS: seq<string> := ["mild", "slight", "minor"]
  const SHORT_DURATIONS: seq<string> := ["few hours", "today", "1 day"]

  /**
   * `_assess_severity`: moderate without symptoms; severe when the
   * lower-cased symptoms hold a severe word, whatever else they say; mild
   * when they hold a mild word or the duration a short-duration phrase;
   * moderate otherwise.
   */
  function AssessSeverity(symptoms: Option<string>, duration: Option<string>): (r: Severity)
    ensures OrElse(symptoms, "") == "" ==> r == Moderate
    ensures OrElse(symptoms, "") != "" ==>
              && (r == Severe <==> AnyIn(SEVERE_WORDS, Lower(symptoms.value)))
              && (r == Mild <==>
                    (!AnyIn(SEVERE_WORDS, Lower(symptoms.value)) &&
                     (AnyIn(MILD_WORDS, Lower(symptoms.value)) || AnyIn(SHORT_DURATIONS, Lower(OrElse(duration, ""))))))
  {
    if symptoms.None? || symptoms.value == "" then Moderate
    else
      var sl := Lower(symptoms.value);
      var dl := Lower(OrElse(duration, ""));
      if AnyIn(SEVERE_WORDS, sl) then Severe
      else if AnyIn(MILD_WORDS, sl) || AnyIn(SHORT_DURATIONS, dl) then Mild
      else Moderate
  }

  /** The rating reads the symptoms without regard to case. */
  lemma SeverityIgnoresCase(symptoms: string, duration: Option<string>)
    ensures AssessSeverity(Some(Lower(symptoms)), duration) == AssessSeverity(Some(symptoms), duration)
  {
    LowerIdempotent(symptoms);
  }

  /** Symptoms rated severe stay severe whatever is said around them, and whatever the duration. */
  lemma {:induction false} SevereInAnyContext(a: string, symptoms: string, b: string, d1: Option<string>, d2: Option<string>)
    requires AssessSeverity(Some(symptoms), d1) == Severe
    ensures AssessSeverity(Some(a + symptoms + b), d2) == Severe
  {
    var i :| 0 <= i < |SEVERE_WORDS| && Contains(SEVERE_WORDS[i], Lower(symptoms));
    LowerAppend(a + symptoms, b);
    LowerAppend(a, symptoms);
    ContainsExtendLeft(SEVERE_WORDS[i], Lower(a), Lower(symptoms));
    ContainsExtendRight(SEVERE_WORDS[i], Lower(a) + Lower(symptoms), Lower(b));
    assert |a + symptoms + b| >= |symptoms| > 0;
  }

  /** A substring is never longer than the text holding it. */
  lemma ContainsNoLonger(sub: string, s: string)
    requires Contains(sub, s)
    ensures |sub| <= |s|
  {
    ContainsAt(sub, s);
  }

  /** Non-empty symptoms that mention chest pain, in any case, are rated severe. */
  lemma ChestPainRatedSevere(symptoms: string, duration: Option<string>)
    requires symptoms != [] && Contains("chest pain", Lower(symptoms))
    ensures AssessSeverity(Some(symptoms), duration) == Severe
  {
    assert Contains(SEVERE_WORDS[0], Lower(symptoms));
  }

  /** No blank symptoms answer is longer than seven characters. */
  lemma LongAnswerNotBlank(n: string)
    requires |n| > 7
    ensures n !in Extractor.SYMPTOM_BLANKS
  {
    forall b | b in Extractor.SYMPTOM_BLANKS
      ensures |b| <= 7
    {
    }
  }

  /**
   * An answer at the symptoms step that mentions chest pain is stored, and
   * the stored symptoms are rated severe.
   */
  lemma ChestPainAnswerRatedSevere(message: string, duration: Option<string>)
    requires Contains("chest pain", Lower(message))
    ensures Extractor.ExtractSymptoms(message).SymptomsValue?
    ensures AssessSeverity(Some(Extractor.ExtractSymptoms(message).symptoms), duration) == Severe
  {
    ContainsSurvivesStrip("chest pain", Lower(message));
    Extractor.NormalizeIsLowerStrip(message);
    var n := Extractor.Normalize(message);
    ContainsNoLonger("chest pain", n);
    LongAnswerNotBlank(n);
    assert Extractor.ExtractSymptoms(message) == SymptomsValue(Strip(message));
    ChestPainRatedSevere(Strip(message), duration);
  }

  // ----- recommendations -----

  const COLD_TRIGGERS: seq<string> := ["cold", "cough", "congestion", "runny nose"]
  const COLD_RECOMMENDATIONS: seq<string> := [
    "Stay hydrated - drink plenty of fluids",
    "Use a humidifier or breathe "
    + "steam from hot shower",
    "Consider over-the-counter decongestants "
    + "if needed",
    "Get adequate rest (7-9 hours of sleep)",
    "Avoid smoking and secondhand smoke"]
  const FEVER_RECOMMENDATIONS: seq<string> := [
    "Monitor temperature regularly",
    "Use fever reducers as directed "
    + "(acetaminophen or ibuprofen)",
    "Stay hydrated with clear fluids",
    "Rest and avoid strenuous activities"]
  const HEADACHE_RECOMMENDATIONS: seq<string> := [
    "Apply cold or warm compress to head/neck",
    "Stay hydrated",
    "Consider over-the-counter pain relievers",
    "Rest in a quiet, dark room"]
  const GENERAL_RECOMMENDATIONS: seq<string> := [
    "Follow up with primary care "
    + "physician within 3-5 days",
    "Return if symptoms worsen or "
    + "new symptoms develop",
    "Monitor for red flag symptoms "
    + "requiring immediate care"]

  /** `(intake_data.symptoms or "").lower()`, the text every keyword test reads. */
  function SymptomText(d: IntakeData): string {
    Lower(OrElse(d.symptoms, ""))
  }

  /**
   * `_generate_intelligent_recommendations`: a block for cold-like words
   * (any of four), one for fever and one for headache, each independently,
   * then the three general entries.
   */
  function Recommendations(d: IntakeData): (r: seq<string>)
    ensures var sl := SymptomText(d);
      && |r| == (if AnyIn(COLD_TRIGGERS, sl) then 5 else 0) + (if Contains("fever", sl) then 4 else 0)
                + (if Contains("headache", sl) then 4 else 0) + 3
      && r[|r| - 3..] == GENERAL_RECOMMENDATIONS
      && (AnyIn(COLD_TRIGGERS, sl) ==> r[..5] == COLD_RECOMMENDATIONS)
    ensures var sl := SymptomText(d);
      var c := if AnyIn(COLD_TRIGGERS, sl) then 5 else 0;
      var f := if Contains("fever", sl) then 4 else 0;
      && (Contains("fever", sl) ==> r[c..c + 4] == FEVER_RECOMMENDATIONS)
      && (Contains("headache", sl) ==> r[c + f..c + f + 4] == HEADACHE_RECOMMENDATIONS)
  {
    var sl := SymptomText(d);
    (if AnyIn(COLD_TRIGGERS, sl) then COLD_RECOMMENDATIONS else [])
    + (if Contains("fever", sl) then FEVER_RECOMMENDATIONS else [])
    + (if Contains("headache", sl) then HEADACHE_RECOMMENDATIONS else [])
    + GENERAL_RECOMMENDATIONS
  }

  /** The source's successive `extend` calls on one list. */
  method BuildRecommendations(d: IntakeData) returns (recs: seq<string>)
    ensures recs == Recommendations(d)
  {
    var sl := SymptomText(d);
    recs := [];
    if AnyIn(COLD_TRIGGERS, sl) {
      recs := recs + COLD_RECOMMENDATIONS;
    }
    if Contains("fever", sl) {
      recs := recs + FEVER_RECOMMENDATIONS;
    }
    if Contains("headache", sl) {
      recs := recs + HEADACHE_RECOMMENDATIONS;
    }
    recs := recs + GENERAL_RECOMMENDATIONS;
  }

  /** Without symptoms only the three general entries are given. */
  lemma NoSymptomsGeneralOnly(d: IntakeData)
    requires OrElse(d.symptoms, "") == ""
    ensures Recommendations(d) == GENERAL_RECOMMENDATIONS
  {
    assert SymptomText(d) == [];
    assert !Contains("fever", []) && !Contains("headache", []);
    assert !AnyIn(COLD_TRIGGERS, []) by {
      forall i | 0 <= i < |COLD_TRIGGERS|
        ensures !Contains(COLD_TRIGGERS[i], [])
      {
        assert COLD_TRIGGERS[i] != [];
      }
    }
  }

  // ----- the keyword dispatch of the four tables -----

  /**
   * The dispatch shared by the assessment, medication, home-remedy and
   * red-flag tables: "cold" and "cough" together, then "fever", then
   * "headache", then the generic case.
   */
  datatype Category = ColdCough | Fever | Headache | General

  /** The category of a lower-cased symptom text, in the order the four tables test. */
  function CategoryOf(sl: string): (c: Category)
    ensures c == ColdCough <==> Contains("cold", sl) && Contains("cough", sl)
    ensures c == Fever <==> !(Contains("cold", sl) && Contains("cough", sl)) && Contains("fever", sl)
    ensures c == Headache <==>
              !(Contains("cold", sl) && Contains("cough", sl)) && !Contains("fever", sl) && Contains("headache", sl)
  {
    if Contains("cold", sl) && Contains("cough", sl) then ColdCough
    else if Contains("fever", sl) then Fever
    else if Contains("headache", sl) then Headache
    else General
  }

  /** The five entries of an assessment dictionary. */
  datatype Assessment = Assessment(
    description: string,
    diagnosis: string,
    followUpTimeline: string,
    expectedImprovement: string,
    additionalNotes: string)

  /** The follow-up timeline of `_get_intelligent_assessment`, per category. */
  function FollowUpTimeline(c: Category): string {
    match c
    case ColdCough => "3-5 days if symptoms persist or worsen"
    case Fever => "24-48 hours if fever persists"
    case Headache => "1 week if headaches persist or worsen"
    case General => "3-5 days"
  }

  /** `_get_intelligent_assessment`. */
  function AssessmentFor(c: Category): Assessment {
    match c
    case ColdCough =>
      Assessment(
        "This appears to be consistent "
        + "with an upper respiratory tract "
        + "infection (common cold).",
        "Likely viral upper respiratory "
        + "infection (common cold) based "
        + "on symptom presentation and "
        + "duration.",
        FollowUpTimeline(c),
        "Symptoms typically improve within 7-10 days",
        "Viral infections are self-limiting "
        + "but symptom management is important "
        + "for comfort.")
    case Fever =>
      Assessment(
        "Patient presents with fever "
        + "which may indicate an infectious "
        + "process.",
        "Febrile illness - requires further "
        + "evaluation to determine underlying cause.",
        FollowUpTimeline(c),
        "Depends on underlying cause",
        "Monitor temperature and associated "
        + "symptoms closely.")
    case Headache =>
      Assessment(
        "Patient reports headache which "
        + "could be tension-type or other "
        + "etiology.",
        "Headache - likely tension-type "
        + "based on presentation.",
        FollowUpTimeline(c),
        "Should improve with rest and "
        + "appropriate treatment",
        "Consider triggers such as stress, "
        + "dehydration, or sleep deprivation.")
    case General =>
      (Assessment(
        "Patient presents with symptoms "
        + "requiring clinical evaluation.",
        "Symptoms require further assessment "
        + "for proper diagnosis.",
        FollowUpTimeline(c),
        "Variable depending on underlying condition",
        "Comprehensive evaluation recommended."))
  }

  /** The bullet every list line opens with, as the source file spells it. */
  const BULLET: string := "\U{00E2}\U{20AC}\U{00A2} "

  /** A text whose first character is not the bullet's does not open with it. */
  lemma NotBulleted(t: string)
    requires t != [] && t[0] != BULLET[0]
    ensures !StartsWith(t, BULLET)
  {
  }

  const ADULT_COLD_MEDICATIONS: string :=
    BULLET + "Acetaminophen 650mg every "
    + "6 hours for aches and fever "
    + "(max 3000mg/day)\n"
    + BULLET + "Ibuprofen 400mg every 6-8 "
    + "hours for inflammation and pain "
    + "(max 1200mg/day)\n"
    + BULLET + "Pseudoephedrine 30mg every "
    + "6 hours for nasal congestion "
    + "(if no contraindications)\n"
    + BULLET + "Dextromethorphan 15mg every "
    + "4 hours for dry cough\n"
    + BULLET + "Guaifenesin 200-400mg every "
    + "4 hours for productive cough\n"
    + BULLET + "Lozenges or throat sprays for sore throat"
  const PEDIATRIC_COLD_MEDICATIONS: string :=
    "Age-appropriate pediatric formulations "
    + "of acetaminophen or ibuprofen "
    + "as directed by weight/age charts."
  /** The two lines the fever and headache lists begin with. */
  const ANALGESIC_LINES: string :=
    BULLET + "Acetaminophen 650mg every "
    + "6 hours (max 3000mg/day)\n"
    + BULLET + "Ibuprofen 400mg every 6-8 "
    + "hours (max 1200mg/day)\n"
  const FEVER_MEDICATIONS: string :=
    ANALGESIC_LINES + BULLET + "Alternate between acetaminophen "
        + "and ibuprofen if needed"
  const HEADACHE_MEDICATIONS: string :=
    ANALGESIC_LINES + BULLET + "Aspirin 500mg every 4-6 hours "
        + "(if no contraindications)"
  const DEFAULT_MEDICATIONS: string :=
    "Consult healthcare provider "
    + "for appropriate medication recommendations."

  /**
   * `_get_medication_recommendations`: a bulleted list for the three named
   * categories, except for a child with a cold and cough, who gets one
   * sentence; the fever and headache lists open with the same two analgesic
   * lines.
   */
  function MedicationAdvice(c: Category, age: int): (r: string)
    ensures StartsWith(r, BULLET) <==> c != General && (c != ColdCough || age >= 18)
    ensures c == Fever || c == Headache ==> StartsWith(r, ANALGESIC_LINES)
  {
    assert StartsWith(ANALGESIC_LINES, BULLET);
    NotBulleted(PEDIATRIC_COLD_MEDICATIONS);
    NotBulleted(DEFAULT_MEDICATIONS);
    StartsWithAppend(ANALGESIC_LINES, ANALGESIC_LINES, FEVER_MEDICATIONS[|ANALGESIC_LINES|..]);
    assert FEVER_MEDICATIONS == ANALGESIC_LINES + FEVER_MEDICATIONS[|ANALGESIC_LINES|..];
    StartsWithAppend(ANALGESIC_LINES, ANALGESIC_LINES, HEADACHE_MEDICATIONS[|ANALGESIC_LINES|..]);
    assert HEADACHE_MEDICATIONS == ANALGESIC_LINES + HEADACHE_MEDICATIONS[|ANALGESIC_LINES|..];
    match c
    case ColdCough => if age >= 18 then ADULT_COLD_MEDICATIONS else PEDIATRIC_COLD_MEDICATIONS
    case Fever => FEVER_MEDICATIONS
    case Headache => HEADACHE_MEDICATIONS
    case General => DEFAULT_MEDICATIONS
  }

  const COLD_REMEDIES: string :=
    BULLET + "Honey and warm water for cough "
    + "(1-2 teaspoons of honey in warm water)\n"
    + BULLET + "Steam inhalation 2-3 times daily\n"
    + BULLET + "Warm salt water gargles (1/2 "
    + "teaspoon salt in warm water)\n"
    + BULLET + "Increase fluid intake (water, "
    + "herbal teas, clear broths)\n"
    + BULLET + "Use a humidifier or vaporizer\n"
    + BULLET + "Elevate head while sleeping\n"
    + BULLET + "Avoid dairy products which "
    + "may increase mucus production"

  const FEVER_REMEDIES: string :=
    BULLET + "Cool compresses on forehead and wrists\n"
    + BULLET + "Lukewarm baths or showers\n"
    + BULLET + "Light, breathable clothing\n"
    + BULLET + "Increased fluid intake\n"
    + BULLET + "Rest in a cool environment"

  const HEADACHE_REMEDIES: string :=
    BULLET + "Apply cold compress to forehead "
    + "for 15-20 minutes\n"
    + BULLET + "Gentle neck and shoulder massage\n"
    + BULLET + "Rest in quiet, dark room\n"
    + BULLET + "Stay hydrated\n"
    + BULLET + "Practice relaxation techniques\n"
    + BULLET + "Regular sleep schedule"

  const HOME_CARE: string := "Rest, hydration, and monitoring of symptoms."

  /** `_get_home_remedies`: a bulleted list for the three named categories, one sentence otherwise. */
  function HomeRemedies(c: Category): (r: string)
    ensures StartsWith(r, BULLET) <==> c != General
  {
    NotBulleted(HOME_CARE);
    match c
    case ColdCough => COLD_REMEDIES
    case Fever => FEVER_REMEDIES
    case Headache => HEADACHE_REMEDIES
    case General => HOME_CARE
  }

  const RED_FLAG_HEAD: string := "SEEK IMMEDIATE MEDICAL ATTENTION IF:\n"

  function RedFlagLines(c: Category): string {
    match c
    case ColdCough =>
      BULLET + "Difficulty breathing or shortness "
      + "of breath\n"
      + BULLET + "Chest pain or pressure\n"
      + BULLET + "High fever (>101.5\U{00C2}\U{00B0}F/38.6\U{00C2}\U{00B0}C) "
      + "for more than 3 days\n"
      + BULLET + "Coughing up blood or pink-tinged sputum\n"
      + BULLET + "Severe headache with neck stiffness\n"
      + BULLET + "Persistent vomiting\n"
      + BULLET + "Signs of dehydration\n"
      + BULLET + "Symptoms significantly worsen "
      + "after initial improvement"
    case Fever =>
      BULLET + "Temperature >103\U{00C2}\U{00B0}F (39.4\U{00C2}\U{00B0}C)\n"
      + BULLET + "Difficulty breathing\n"
      + BULLET + "Severe headache with neck stiffness\n"
      + BULLET + "Persistent vomiting\n"
      + BULLET + "Signs of dehydration\n"
      + BULLET + "Confusion or altered mental state\n"
      + BULLET + "Chest pain"
    case Headache =>
      BULLET + "Sudden, severe headache (\"worst "
      + "headache of life\")\n"
      + BULLET + "Headache with fever and neck stiffness\n"
      + BULLET + "Headache with vision changes\n"
      + BULLET + "Headache with confusion or "
      + "altered mental state\n"
      + BULLET + "Headache after head injury\n"
      + BULLET + "Progressively worsening headache"
    case General =>
      BULLET + "Severe or worsening symptoms\n"
      + BULLET + "Difficulty breathing\n"
      + BULLET + "Chest pain\n"
      + BULLET + "High fever\n"
      + BULLET + "Severe headache\n"
      + BULLET + "Persistent vomiting\n"
      + BULLET + "Signs of dehydration"
  }

  /** `_get_red_flag_symptoms`: every list, the generic one included, opens with the same heading. */
  function RedFlags(c: Category): (r: string)
    ensures StartsWith(r, RED_FLAG_HEAD)
    ensures r[|RED_FLAG_HEAD|..] == RedFlagLines(c)
  {
    StartsWithAppend(RED_FLAG_HEAD, RED_FLAG_HEAD, RedFlagLines(c));
    RED_FLAG_HEAD + RedFlagLines(c)
  }

  /** Each category has its own follow-up timeline, so the assessment tells the categories apart. */
  lemma AssessmentsDistinct(c1: Category, c2: Category)
    requires c1 != c2
    ensures FollowUpTimeline(c1) != FollowUpTimeline(c2)
  {
  }

  /**
   * The age matters to the medication advice only for a cold and cough, and
   * there only on which side of 18 it lies.
   */
  lemma MedicationAgeOnlyForColdCough(c: Category, a1: int, a2: int)
    ensures MedicationAdvice(c, a1) == MedicationAdvice(c, a2) <==> c != ColdCough || (a1 >= 18 <==> a2 >= 18)
  {
    if c == ColdCough && (a1 >= 18 <==> a2 < 18) {
      assert StartsWith(MedicationAdvice(c, a1), BULLET) != StartsWith(MedicationAdvice(c, a2), BULLET);
    }
  }

  // ----- the rule-based narrative -----

  /** `intake_data.age or 0`. */
  function AgeOrZero(d: IntakeData): int {
    if d.age.Some? then d.age.value else 0
  }

  /** `{intake_data.age or 'Not provided'}`. */
  function AgeText(d: IntakeData): (r: string)
    ensures AgeOrZero(d) == 0 ==> r == "Not provided"
    ensures AgeOrZero(d) != 0 ==> r == IntToString(AgeOrZero(d))
  {
    if AgeOrZero(d) != 0 then IntToString(AgeOrZero(d)) else "Not provided"
  }

  /**
   * The patient part of `_generate_intelligent_fallback_summary`: the
   * patient information, the chief complaint, the history of present illness
   * (age, subject, complaint, period), the medications and the allergies.
   */
  datatype PatientLines = PatientLines(
    name: string,
    age: string,
    gender: string,
    chiefComplaint: string,
    yearsOld: int,
    subject: string,
    presenting: string,
    period: string,
    medications: string,
    allergies: string)

  /** Each patient field of the narrative, with the default it falls back to. */
  function PatientLinesOf(d: IntakeData): (p: PatientLines)
    ensures p.name == OrElse(d.name, "Not provided") && p.age == AgeText(d)
    ensures p.gender == OrElse(d.gender, "Not provided")
    ensures p.chiefComplaint == OrElse(d.symptoms, "Not specified")
    ensures p.yearsOld == AgeOrZero(d) && p.subject == OrElse(d.gender, "patient")
    ensures p.presenting == OrElse(d.symptoms, "symptoms") && p.period == OrElse(d.duration, "unspecified duration")
    ensures p.medications == OrElse(d.medications, "None reported")
    ensures p.allergies == OrElse(d.allergies, "None reported")
  {
    PatientLines(
      OrElse(d.name, "Not provided"),
      AgeText(d),
      OrElse(d.gender, "Not provided"),
      OrElse(d.symptoms, "Not specified"),
      AgeOrZero(d),
      OrElse(d.gender, "patient"),
      OrElse(d.symptoms, "symptoms"),
      OrElse(d.duration, "unspecified duration"),
      OrElse(d.medications, "None reported"),
      OrElse(d.allergies, "None reported"))
  }

  /** The sections of `_generate_intelligent_fallback_summary`: the patient part and the four table entries. */
  datatype FallbackNote = FallbackNote(
    patient: PatientLines,
    assessment: Assessment,
    medicationAdvice: string,
    homeRemedies: string,
    redFlags: string)

  /**
   * The rule-based narrative: every table entry comes from the category of
   * the lower-cased symptoms, and only the medication entry reads the age.
   */
  function IntelligentFallbackSummary(d: IntakeData): (n: FallbackNote)
    ensures n.patient == PatientLinesOf(d)
    ensures var c := CategoryOf(SymptomText(d));
      && n.assessment == AssessmentFor(c)
      && n.medicationAdvice == MedicationAdvice(c, AgeOrZero(d))
      && n.homeRemedies == HomeRemedies(c)
      && n.redFlags == RedFlags(c)
  {
    var c := CategoryOf(SymptomText(d));
    FallbackNote(
      PatientLinesOf(d),
      AssessmentFor(c),
      MedicationAdvice(c, AgeOrZero(d)),
      HomeRemedies(c),
      RedFlags(c))
  }

  /**
   * "cold" without "cough" splits the advice: the recommendations carry the
   * cold block, while the tables fall through to a later case.
   */
  lemma ColdWithoutCoughSplitsAdvice(d: IntakeData)
    requires Contains("cold", SymptomText(d)) && !Contains("cough", SymptomText(d))
    ensures AnyIn(COLD_TRIGGERS, SymptomText(d))
    ensures Recommendations(d)[..5] == COLD_RECOMMENDATIONS
    ensures CategoryOf(SymptomText(d)) != ColdCough
  {
    assert Contains(COLD_TRIGGERS[0], SymptomText(d));
  }

  /** With both fever and headache the tables give the fever entries, the recommendations both blocks. */
  lemma FeverBeforeHeadache(d: IntakeData)
    requires Contains("fever", SymptomText(d)) && Contains("headache", SymptomText(d))
    requires !AnyIn(COLD_TRIGGERS, SymptomText(d))
    ensures CategoryOf(SymptomText(d)) == Fever
    ensures Recommendations(d) == FEVER_RECOMMENDATIONS + HEADACHE_RECOMMENDATIONS + GENERAL_RECOMMENDATIONS
  {
    assert !Contains(COLD_TRIGGERS[0], SymptomText(d));
  }

  // ----- the structured record -----

  /** The structured part of the summary response. */
  datatype StructuredData = StructuredData(
    chiefComplaint: string,
    symptoms: seq<string>,
    duration: string,
    severity: Severity,
    associatedSymptoms: seq<string>,
    medicalHistory: string,
    currentMedications: seq<string>,
    allergies: seq<string>,
    recommendations: seq<string>)

  /**
   * `[x] if x and x.lower() != 'none' else []`: an answer is listed unless
   * it is missing, empty, or "none" in any case.
   */
  function ReportedList(x: Option<string>): (r: seq<string>)
    ensures |r| <= 1
    ensures r != [] <==> OrElse(x, "") != "" && Lower(x.value) != "none"
    ensures r != [] ==> r == [x.value]
  {
    if x.Some? && x.value != "" && Lower(x.value) != "none" then [x.value] else []
  }

  /** A negative answer at the medications or allergies step ends up as an empty list. */
  lemma NegativeAnswerListsNothing(message: string)
    requires Extractor.Normalize(message) in Extractor.NEGATIVE_ANSWERS
    ensures ReportedList(Extractor.NegatableAnswer(message)) == []
  {
    NoneNotListed(Extractor.NegatableAnswer(message));
  }

  /** The stored sentinel "none" is never listed. */
  lemma NoneNotListed(x: Option<string>)
    requires x == Some("none")
    ensures ReportedList(x) == []
  {
    LowerOfLowercase(x.value);
  }

  /** Any other non-blank answer is listed as it was stored. */
  lemma OtherAnswerListed(message: string)
    requires Extractor.NegatableAnswer(message).Some?
    requires Lower(Extractor.NegatableAnswer(message).value) != "none"
    ensures ReportedList(Extractor.NegatableAnswer(message)) == [Extractor.NegatableAnswer(message).value]
  {
  }

  const STRUCTURED_HISTORY: string := "Patient reported chief complaint "
      + "as documented"

  /**
   * The `StructuredData` assembled by `generate_medical_summary`: the
   * complaint and duration with "Not specified" as default, the symptoms as
   * a one-entry list when present, the rated severity, the reported
   * medications and allergies, and the recommendations.
   */
  function StructuredSummary(d: IntakeData): (s: StructuredData)
    ensures s.symptoms == [] || s.symptoms == [s.chiefComplaint]
    ensures s.symptoms == [] <==> OrElse(d.symptoms, "") == ""
    ensures s.chiefComplaint == OrElse(d.symptoms, "Not specified")
    ensures s.symptoms == (if OrElse(d.symptoms, "") != "" then [d.symptoms.value] else [])
    ensures s.medicalHistory == STRUCTURED_HISTORY
    ensures s.symptoms == [] ==> s.chiefComplaint == "Not specified" && s.severity == Moderate
    ensures s.duration == OrElse(d.duration, "Not specified")
    ensures s.severity == AssessSeverity(d.symptoms, d.duration)
    ensures s.currentMedications == ReportedList(d.medications) && s.allergies == ReportedList(d.allergies)
    ensures s.associatedSymptoms == []
    ensures s.recommendations == Recommendations(d)
  {
    StructuredData(
      OrElse(d.symptoms, "Not specified"),
      if OrElse(d.symptoms, "") != "" then [d.symptoms.value] else [],
      OrElse(d.duration, "Not specified"),
      AssessSeverity(d.symptoms, d.duration),
      [],
      STRUCTURED_HISTORY,
      ReportedList(d.medications),
      ReportedList(d.allergies),
      Recommendations(d))
  }

  // ----- generate_medical_summary -----

  /** The summary text: the service's stripped reply, the rule-based narrative, or the fixed text. */
  datatype SummaryText = ServiceText(text: string) | RuleBased(note: FallbackNote) | FixedText(text: string)

  /** What the summary path returns (identifiers and timestamps left out). */
  datatype MedicalSummary = MedicalSummary(summary: SummaryText, structured: StructuredData)

  /**
   * `generate_medical_summary`. `ai` stands for the outcome of the one call
   * to the text service; its failure selects the rule-based narrative, and
   * the structured record does not depend on it.
   */
  function GenerateMedicalSummary(d: IntakeData, ai: AIResult): (r: MedicalSummary)
    ensures r.structured == StructuredSummary(d)
    ensures ai.Ok? ==> r.summary == ServiceText(Strip(ai.text))
    ensures ai.Err? ==> r.summary == RuleBased(IntelligentFallbackSummary(d))
  {
    var text := match ai
      case Ok(t) => ServiceText(Strip(t))
      case Err(_) => RuleBased(IntelligentFallbackSummary(d));
    MedicalSummary(text, StructuredSummary(d))
  }

  /** Whichever way the text is produced, the structured record is the same. */
  lemma StructuredIgnoresService(d: IntakeData, a1: AIResult, a2: AIResult)
    ensures GenerateMedicalSummary(d, a1).structured == GenerateMedicalSummary(d, a2).structured
  {
  }

  const EMERGENCY_SUMMARY_TEXT: string :=
    "Medical intake completed. Please "
    + "review with healthcare provider."

  /**
   * `_generate_emergency_fallback_summary`: the fixed text, moderate
   * severity, one recommendation, empty lists; it keeps the complaint and
   * duration of the normal record.
   */
  function EmergencyFallbackSummary(d: IntakeData): (r: MedicalSummary)
    ensures r.summary == FixedText(EMERGENCY_SUMMARY_TEXT)
    ensures r.structured.chiefComplaint == StructuredSummary(d).chiefComplaint
    ensures r.structured.duration == StructuredSummary(d).duration
    ensures r.structured.severity == Moderate
    ensures r.structured.symptoms == [] && r.structured.currentMedications == [] && r.structured.allergies == []
    ensures r.structured.recommendations == ["Review with healthcare provider"]
    ensures r.structured.associatedSymptoms == [] && r.structured.medicalHistory == "Intake data available"
  {
    MedicalSummary(
      FixedText(EMERGENCY_SUMMARY_TEXT),
      StructuredData(
        OrElse(d.symptoms, "Not specified"),
        [],
        OrElse(d.duration, "Not specified"),
        Moderate,
        [],
        "Intake data available",
        [],
        [],
        ["Review with healthcare provider"]))
  }
}
