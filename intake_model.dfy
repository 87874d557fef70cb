/**
 * The values the intake controller works on: the intake steps, the patient's
 * partially collected fields (`IntakeData`), the one-key update that the
 * field extractor produces, and the outcome of a call to the external
 * text-completion service.
 */
module IntakeModel {
  import opened Text

  datatype Option<+T> = None | Some(value: T)

  /** Outcome of one call to the external text-completion service. */
  datatype AIResult = Ok(text: string) | Err(error: string)

  /** The intake steps, in the order the dialogue visits them. */
  datatype Step = Name | Age | Gender | Symptoms | Duration | Medications | Allergies | Summary | Complete

  /** The enum value of a step, as the dictionaries and the caller spell it. */
  function StepName(s: Step): string {
    match s
    case Name => "name"
    case Age => "age"
    case Gender => "gender"
    case Symptoms => "symptoms"
    case Duration => "duration"
    case Medications => "medications"
    case Allergies => "allergies"
    case Summary => "summary"
    case Complete => "complete"
  }

  /** The step a string names, if any. */
  function ParseStep(x: string): (r: Option<Step>)
    ensures r.Some? ==> StepName(r.value) == x
  {
    if x == "name" then Some(Name)
    else if x == "age" then Some(Age)
    else if x == "gender" then Some(Gender)
    else if x == "symptoms" then Some(Symptoms)
    else if x == "duration" then Some(Duration)
    else if x == "medications" then Some(Medications)
    else if x == "allergies" then Some(Allergies)
    else if x == "summary" then Some(Summary)
    else if x == "complete" then Some(Complete)
    else None
  }

  /** Step names and parsing are inverse to each other. */
  lemma StepNameRoundTrip(s: Step, x: string)
    ensures ParseStep(StepName(s)) == Some(s)
    ensures ParseStep(x) == Some(s) <==> x == StepName(s)
  {
  }

  /** Position of a step in the intake order. */
  function StepRank(s: Step): (r: nat)
    ensures r <= 8
  {
    match s
    case Name => 0
    case Age => 1
    case Gender => 2
    case Symptoms => 3
    case Duration => 4
    case Medications => 5
    case Allergies => 6
    case Summary => 7
    case Complete => 8
  }

  datatype Gender = Male | Female | Other

  function GenderName(g: Gender): (r: string)
    ensures r != ""
  {
    match g
    case Male => "male"
    case Female => "female"
    case Other => "other"
  }

  datatype Severity = Mild | Moderate | Severe

  /**
   * The intake record the caller sends with every message. Every field may be
   * missing; `gender` is free text, not the enum.
   */
  datatype IntakeData = IntakeData(
    name: Option<string>,
    age: Option<int>,
    gender: Option<string>,
    symptoms: Option<string>,
    duration: Option<string>,
    allergies: Option<string>,
    medications: Option<string>,
    currentStep: Step)

  /** The seven patient fields, as dictionary keys. */
  datatype Key = NameKey | AgeKey | GenderKey | SymptomsKey | DurationKey | MedicationsKey | AllergiesKey

  /** The fixed order in which the dialogue asks for the fields. */
  const FIELD_ORDER: seq<Key> :=
    [NameKey, AgeKey, GenderKey, SymptomsKey, DurationKey, MedicationsKey, AllergiesKey]

  /** The step that asks for a field. */
  function StepOfKey(k: Key): (s: Step)
    ensures StepRank(s) < 7
  {
    match k
    case NameKey => Name
    case AgeKey => Age
    case GenderKey => Gender
    case SymptomsKey => Symptoms
    case DurationKey => Duration
    case MedicationsKey => Medications
    case AllergiesKey => Allergies
  }

  /** The field a step asks for; `summary` and `complete` ask for none. */
  function KeyOfStep(s: Step): (k: Option<Key>)
    ensures k.Some? <==> StepRank(s) < 7
    ensures k.Some? ==> StepOfKey(k.value) == s && FIELD_ORDER[StepRank(s)] == k.value
  {
    match s
    case Name => Some(NameKey)
    case Age => Some(AgeKey)
    case Gender => Some(GenderKey)
    case Symptoms => Some(SymptomsKey)
    case Duration => Some(DurationKey)
    case Medications => Some(MedicationsKey)
    case Allergies => Some(AllergiesKey)
    case Summary => None
    case Complete => None
  }

  /** A dictionary value: the model's fields hold either text or an integer. */
  datatype Value = Str(s: string) | Int(n: int)

  /** `data.get(key)`. */
  function Get(d: IntakeData, k: Key): Option<Value> {
    match k
    case NameKey => if d.name.Some? then Some(Str(d.name.value)) else None
    case AgeKey => if d.age.Some? then Some(Int(d.age.value)) else None
    case GenderKey => if d.gender.Some? then Some(Str(d.gender.value)) else None
    case SymptomsKey => if d.symptoms.Some? then Some(Str(d.symptoms.value)) else None
    case DurationKey => if d.duration.Some? then Some(Str(d.duration.value)) else None
    case MedicationsKey => if d.medications.Some? then Some(Str(d.medications.value)) else None
    case AllergiesKey => if d.allergies.Some? then Some(Str(d.allergies.value)) else None
  }

  /** Python truthiness of a looked-up value: `None`, `""` and `0` are false. */
  predicate Truthy(v: Option<Value>) {
    match v
    case None => false
    case Some(Str(s)) => s != ""
    case Some(Int(n)) => n != 0
  }

  /** The field counts as answered. */
  predicate IsSet(d: IntakeData, k: Key) {
    Truthy(Get(d, k))
  }

  /** `x or default` for an optional string. */
  function OrElse(x: Option<string>, default: string): (r: string)
    ensures x.Some? && x.value != "" ==> r == x.value
    ensures x.None? || x.value == "" ==> r == default
  {
    if x.Some? && x.value != "" then x.value else default
  }

  /**
   * What the field extractor returns: the empty dictionary, the internal
   * greeting marker `{is_greeting: True}`, or a single field.
   */
  datatype Extraction =
    | NoData
    | Greeting
    | NameValue(name: string)
    | AgeValue(age: int)
    | GenderValue(gender: Gender)
    | SymptomsValue(symptoms: string)
    | DurationValue(duration: string)
    | MedicationsValue(medications: string)
    | AllergiesValue(allergies: string)

  /** The field key an extraction carries, if it carries one. */
  function ExtractedKey(e: Extraction): Option<Key> {
    match e
    case NoData => None
    case Greeting => None
    case NameValue(_) => Some(NameKey)
    case AgeValue(_) => Some(AgeKey)
    case GenderValue(_) => Some(GenderKey)
    case SymptomsValue(_) => Some(SymptomsKey)
    case DurationValue(_) => Some(DurationKey)
    case MedicationsValue(_) => Some(MedicationsKey)
    case AllergiesValue(_) => Some(AllergiesKey)
  }

  /** The extraction is one the step can produce: its field is the step's own. */
  predicate FitsStep(e: Extraction, step: Step) {
    match e
    case NoData => true
    case Greeting => step == Name
    case NameValue(_) => step == Name
    case AgeValue(_) => step == Age
    case GenderValue(_) => step == Gender
    case SymptomsValue(_) => step == Symptoms
    case DurationValue(_) => step == Duration
    case MedicationsValue(_) => step == Medications
    case AllergiesValue(_) => step == Allergies
  }

  /** An extraction that fits its step carries the field that step asks for, or none. */
  lemma FitsStepKey(e: Extraction, step: Step)
    requires FitsStep(e, step)
    ensures ExtractedKey(e).Some? ==> ExtractedKey(e) == KeyOfStep(step)
    ensures StepRank(step) >= 7 ==> e == NoData
  {
  }

  /** The value stored under that key. */
  function ExtractedValue(e: Extraction): Value
    requires ExtractedKey(e).Some?
  {
    match e
    case NameValue(s) => Str(s)
    case AgeValue(n) => Int(n)
    case GenderValue(g) => Str(GenderName(g))
    case SymptomsValue(s) => Str(s)
    case DurationValue(s) => Str(s)
    case MedicationsValue(s) => Str(s)
    case AllergiesValue(s) => Str(s)
  }

  /** `extracted_data.get('name', '')`. */
  function ExtractedNameOr(e: Extraction, default: string): string {
    if e.NameValue? then e.name else default
  }

  /** `extracted_data.get('symptoms', default)`. */
  function ExtractedSymptomsOr(e: Extraction, default: string): string {
    if e.SymptomsValue? then e.symptoms else default
  }

  /**
   * The dictionary built at the start of a turn: the caller's fields with the
   * extraction laid over them, plus the greeting marker if there was one.
   */
  datatype MergedData = MergedData(data: IntakeData, isGreeting: bool)
}
