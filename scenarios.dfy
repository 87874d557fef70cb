/**
 * Worked turns of the intake dialogue: a small record, and the duration
 * answer that leads to the medications question.
 */
module Scenarios {
  import opened Text
  import opened IntakeModel
  import opened Extractor
  import opened Resolver
  import opened Safety
  import opened Responses
  import opened IntakeTurn

  /** A record holding only a name and an age, at any step. */
  function SamAt30(step: Step): IntakeData {
    IntakeData(Some("Sam"), Some(30), None, None, None, None, None, step)
  }

  /** With a name and an age on record, the next question is the gender, whatever the step. */
  lemma NameAndAgeLeadToGender(step: Step)
    ensures NextStepFromData(MergedData(SamAt30(step), false)) == Gender
    ensures NextStep(SamAt30(step)) == Gender
  {
  }

  /**
   * After name, age, gender and symptoms, a stored duration makes medications
   * the next question.
   */
  lemma DurationStoredAsksMedications(current: IntakeData, e: Extraction)
    requires IsSet(current, NameKey) && IsSet(current, AgeKey) && IsSet(current, GenderKey) && IsSet(current, SymptomsKey)
    requires !IsSet(current, MedicationsKey)
    requires e.DurationValue? && e.duration != ""
    ensures NextStepFromData(Merge(current, e)) == Medications
  {
    var m := Merge(current, e);
    assert IsSet(m.data, DurationKey);
  }

  /** At the duration step an answer naming a time unit is stored as it is, stripped. */
  lemma DurationWithUnitExtracted(message: string)
    requires Normalize(message) !in DURATION_BLANKS && AnyIn(TIME_UNITS, Normalize(message))
    ensures ExtractData(message, Duration) == DurationValue(Strip(message))
    ensures Strip(message) != ""
  {
    DispatchDuration(message, Duration);
    assert ExtractDuration(message) == DurationValue(Strip(message));
  }

  /**
   * At the duration step, after name, age, gender and symptoms, an answer
   * naming a time unit is stored as it is and the next question is about
   * medications.
   */
  lemma DurationWithUnitTurn(message: string, current: IntakeData, ai: AIResult)
    requires current.currentStep == Duration
    requires IsSet(current, NameKey) && IsSet(current, AgeKey) && IsSet(current, GenderKey) && IsSet(current, SymptomsKey)
    requires !IsSet(current, MedicationsKey)
    requires Normalize(message) !in DURATION_BLANKS && AnyIn(TIME_UNITS, Normalize(message))
    requires !IsEmergency(message)
    ensures var r := ProcessIntakeMessage(message, current, ai);
      && r.extracted == DurationValue(Strip(message))
      && r.nextStep == Medications
      && r.emergency.None?
  {
    DurationWithUnitExtracted(message);
    DurationStoredAsksMedications(current, DurationValue(Strip(message)));
  }

  /** The same turn without the text service: the medications template is sent. */
  lemma DurationWithUnitFallback(message: string, current: IntakeData, ai: AIResult)
    requires current.currentStep == Duration && ai.Err?
    requires IsSet(current, NameKey) && IsSet(current, AgeKey) && IsSet(current, GenderKey) && IsSet(current, SymptomsKey)
    requires !IsSet(current, MedicationsKey)
    requires Normalize(message) !in DURATION_BLANKS && AnyIn(TIME_UNITS, Normalize(message))
    requires !IsEmergency(message)
    ensures ProcessIntakeMessage(message, current, ai).response == ENHANCED_MEDICATIONS
  {
    DurationWithUnitTurn(message, current, ai);
    FallbackTurnReply(message, current, ai);
    MedicationsTemplate(ProcessIntakeMessage(message, current, ai).extracted);
  }
}
