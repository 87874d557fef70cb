/**
 * One intake turn (`process_intake_message`): extract a field from the
 * message at the caller's step, lay it over the caller's record, resolve the
 * next step, and answer with the emergency alert, the text service's reply,
 * or the enhanced fallback template.
 */
module IntakeTurn {
  import opened Text
  import opened IntakeModel
  import opened Extractor
  import opened Resolver
  import opened Safety
  import opened Responses

  /**
   * `{**current_data.dict(), **extracted_data}`: the extracted field replaces
   * the caller's value for that key, every other field is kept, and the
   * greeting marker rides along.
   */
  function Merge(d: IntakeData, e: Extraction): (m: MergedData)
    ensures m.isGreeting <==> e.Greeting?
    ensures m.data.currentStep == d.currentStep
    ensures forall k :: Get(m.data, k) == (if ExtractedKey(e) == Some(k) then Some(ExtractedValue(e)) else Get(d, k))
  {
    match e
    case NoData => MergedData(d, false)
    case Greeting => MergedData(d, true)
    case NameValue(v) => MergedData(d.(name := Some(v)), false)
    case AgeValue(n) => MergedData(d.(age := Some(n)), false)
    case GenderValue(g) => MergedData(d.(gender := Some(GenderName(g))), false)
    case SymptomsValue(v) => MergedData(d.(symptoms := Some(v)), false)
    case DurationValue(v) => MergedData(d.(duration := Some(v)), false)
    case MedicationsValue(v) => MergedData(d.(medications := Some(v)), false)
    case AllergiesValue(v) => MergedData(d.(allergies := Some(v)), false)
  }

  /** `{k: v for k, v in extracted_data.items() if k != "is_greeting"}`. */
  function Clean(e: Extraction): (r: Extraction)
    ensures !r.Greeting?
    ensures ExtractedKey(r) == ExtractedKey(e)
    ensures !e.Greeting? ==> r == e
  {
    if e.Greeting? then NoData else e
  }

  /**
   * `_get_intelligent_intake_response`: the service's reply, stripped, with
   * the disclaimer rule for medical content; on failure the enhanced
   * template keyed by the next step.
   */
  function IntakeReply(ai: AIResult, nextStep: Step, e: Extraction): (r: string)
    ensures ai.Ok? ==> r == IntakeAIReply(ai.text)
    ensures ai.Err? ==> r == EnhancedResponse(StepName(nextStep), e)
  {
    match ai
    case Ok(text) => IntakeAIReply(text)
    case Err(_) => EnhancedResponse(StepName(nextStep), e)
  }

  /**
   * What a turn returns: the reply, the extraction, the next step, and the
   * `is_emergency` key, which only the emergency reply carries.
   */
  datatype TurnResult = TurnResult(response: string, extracted: Extraction, nextStep: Step, emergency: Option<bool>)

  /**
   * `process_intake_message`. The text service's outcome `ai` stands for the
   * one call the turn may make.
   */
  function ProcessIntakeMessage(message: string, current: IntakeData, ai: AIResult): (r: TurnResult)
    ensures var e := ExtractData(message, current.currentStep);
      && r.nextStep == NextStepFromData(Merge(current, e))
      && (IsEmergency(message) <==> r.emergency == Some(true))
      && (!IsEmergency(message) ==> r.emergency.None?)
      && !r.extracted.Greeting?
      && ExtractedKey(r.extracted) == ExtractedKey(e)
      && FitsStep(r.extracted, current.currentStep)
    ensures r.extracted == (if IsEmergency(message) then ExtractData(message, current.currentStep)
                            else Clean(ExtractData(message, current.currentStep)))
    ensures IsEmergency(message) ==>
              r.response == EmergencyAlert(message) && Contains(Lower(message), r.response) && HasDisclaimerMarker(r.response)
    ensures !IsEmergency(message) ==>
              r.response == IntakeReply(ai, r.nextStep, ExtractData(message, current.currentStep))
  {
    var e := ExtractData(message, current.currentStep);
    var next := NextStepFromData(Merge(current, e));
    if IsEmergency(message) then
      assert !e.Greeting? by {
        if e.Greeting? {
          GreetingNotEmergency(message);
        }
      }
      TurnResult(EmergencyAlert(message), e, next, Some(true))
    else
      TurnResult(IntakeReply(ai, next, e), Clean(e), next, None)
  }

  // ----- properties -----

  /** No greeting word holds any of the letters b, c, s or w. */
  lemma GreetingsLackLetters(g: string)
    requires g in GREETINGS
    ensures forall c :: c in g ==> c !in "bcsw"
  {
  }

  /**
   * A bare greeting is never an emergency: every emergency phrase holds one
   * of the letters b, c, s or w, and no greeting does. So the emergency
   * reply, which returns the extraction unfiltered, never leaks the marker.
   */
  lemma GreetingNotEmergency(message: string)
    requires Normalize(message) in GREETINGS
    ensures !IsEmergency(message)
  {
    GreetingsLackLetters(Normalize(message));
    NoEmergencyWithoutLetters(message);
  }

  /** With an emergency phrase the outcome of the text service plays no part. */
  lemma EmergencyIgnoresService(message: string, current: IntakeData, a1: AIResult, a2: AIResult)
    requires IsEmergency(message)
    ensures ProcessIntakeMessage(message, current, a1) == ProcessIntakeMessage(message, current, a2)
  {
  }

  /** Every value the extractor stores is truthy, except a name that strips to "". */
  lemma ExtractedValueTruthy(message: string, step: Step)
    requires ExtractedKey(ExtractData(message, step)).Some?
    requires ExtractData(message, step) != NameValue("")
    ensures Truthy(Some(ExtractedValue(ExtractData(message, step))))
  {
    var e := ExtractData(message, step);
    if e.NameValue? {
      assert e.name != "";
    }
  }

  /**
   * A turn that extracts nothing leaves the resolver's answer as the record's
   * own: the caller is asked the same question again.
   */
  lemma NothingExtractedReasks(message: string, current: IntakeData, ai: AIResult)
    requires ExtractData(message, current.currentStep) == NoData
    ensures ProcessIntakeMessage(message, current, ai).nextStep == NextStep(current)
  {
    assert Merge(current, NoData) == MergedData(current, false);
  }

  /**
   * Laying a truthy value for the caller's own step over a record whose
   * resolver answer is that step moves the resolver strictly forward.
   */
  lemma MergeAnswerAdvances(current: IntakeData, e: Extraction)
    requires current.currentStep == NextStep(current) && current.currentStep != Summary
    requires FitsStep(e, current.currentStep) && ExtractedKey(e).Some?
    requires Truthy(Some(ExtractedValue(e)))
    ensures StepRank(NextStepFromData(Merge(current, e))) > StepRank(current.currentStep)
  {
    var step := current.currentStep;
    var m := Merge(current, e);
    var next := NextStepFromData(m);
    FitsStepKey(e, step);
    var key := ExtractedKey(e).value;
    assert KeyOfStep(step) == Some(key);
    assert IsSet(m.data, key);
    forall j | 0 <= j < StepRank(step)
      ensures IsSet(m.data, FIELD_ORDER[j])
    {
      assert IsSet(current, FIELD_ORDER[j]);
      assert FIELD_ORDER[j] != key;
    }
    if next != Summary {
      assert KeyOfStep(next).value == FIELD_ORDER[StepRank(next)];
    }
  }

  /**
   * In a well-ordered dialogue (the caller is at the step the resolver last
   * chose), a turn that stores a truthy answer for that step moves strictly
   * forward.
   */
  lemma AnsweredStepAdvances(message: string, current: IntakeData, ai: AIResult)
    requires current.currentStep == NextStep(current) && current.currentStep != Summary
    requires ExtractedKey(ExtractData(message, current.currentStep)).Some?
    requires ExtractData(message, current.currentStep) != NameValue("")
    ensures StepRank(ProcessIntakeMessage(message, current, ai).nextStep) > StepRank(current.currentStep)
  {
    ExtractedValueTruthy(message, current.currentStep);
    MergeAnswerAdvances(current, ExtractData(message, current.currentStep));
  }

  /**
   * An empty answer at the name step is stored as the name "" and, being
   * falsy, leaves the dialogue at the name step.
   */
  lemma EmptyNameStaysAtName(message: string, current: IntakeData, ai: AIResult)
    requires current.currentStep == Name && Strip(message) == ""
    ensures ProcessIntakeMessage(message, current, ai).extracted == NameValue("")
    ensures ProcessIntakeMessage(message, current, ai).nextStep == Name
  {
    NormalizeIsLowerStrip(message);
    NoEmergencyWithoutLetters(message);
    assert ExtractName(message) == NameValue("");
    assert Merge(current, NameValue("")).data.name == Some("");
  }

  /**
   * Without the text service, a turn that is neither an emergency nor a
   * greeting is answered with the template of the step it moves to.
   */
  lemma FallbackTurnReply(message: string, current: IntakeData, ai: AIResult)
    requires ai.Err? && !IsEmergency(message)
    requires !ExtractData(message, current.currentStep).Greeting?
    ensures var r := ProcessIntakeMessage(message, current, ai);
      r.response == EnhancedTemplate(r.nextStep, r.extracted)
  {
    var r := ProcessIntakeMessage(message, current, ai);
    EnhancedForStep(r.nextStep, ExtractData(message, current.currentStep));
  }

  /** A bare greeting at the name step: name again, nothing returned, the welcome on fallback. */
  lemma GreetingTurn(message: string, current: IntakeData, ai: AIResult)
    requires current.currentStep == Name && Normalize(message) in GREETINGS
    ensures var r := ProcessIntakeMessage(message, current, ai);
      && r.nextStep == Name && r.extracted == NoData && r.emergency.None?
      && (ai.Err? ==> r.response == ENHANCED_WELCOME)
  {
    GreetingNotEmergency(message);
  }
}
