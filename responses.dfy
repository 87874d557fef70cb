/**
 * The deterministic reply tables of the intake dialogue: the enhanced
 * fallback keyed by the next step (`_get_enhanced_contextual_response`), the
 * acknowledgement table keyed by the field just extracted
 * (`_get_contextual_response`), the friendly defaults
 * (`_get_default_friendly_response`) and the older step-question responder
 * (`_generate_response`).
 */
module Responses {
  import opened Text
  import opened IntakeModel
  import Extractor

  // ----- _get_enhanced_contextual_response -----

  const ENHANCED_WELCOME: string :=
    "Hello! I'm Dr. Sarah, your AI "
    + "medical assistant. I'm here "
    + "to help gather some information "
    + "before your consultation to "
    + "ensure your healthcare provider "
    + "can give you the best possible care.\n\n"
    + "I'll ask you a few questions "
    + "to understand your situation "
    + "better. This is completely confidential "
    + "and will help make your appointment "
    + "more efficient.\n\n"
    + "Let's start - could you please "
    + "tell me your name?"

  const ENHANCED_NAME: string :=
    "Hello! I'm Dr. Sarah, your AI "
    + "medical assistant. I'm here "
    + "to help gather some information "
    + "before your consultation. Let's "
    + "start - could you please tell "
    + "me your name?"
  const ENHANCED_AGE_HEAD: string := "Thank you, "
  const ENHANCED_AGE_TAIL: string :=
    ". It's good to meet you! I'll "
    + "be guiding you through some "
    + "questions to help prepare for "
    + "your healthcare consultation.\n\nCould "
    + "you please tell me your age?"
  const ENHANCED_GENDER: string :=
    "Thank you for sharing that. "
    + "Now, to help me understand your "
    + "medical profile better, what's "
    + "your gender? You can say male, "
    + "female, or other."
  const ENHANCED_SYMPTOMS: string :=
    "Perfect, thank you. Now, I'd "
    + "like to understand what brought "
    + "you here today. Could you describe "
    + "your main symptoms or health "
    + "concerns? Please take your time "
    + "and share as much detail as "
    + "you're comfortable with."
  const ENHANCED_DURATION_HEAD: string := "I understand you're experiencing "
  const ENHANCED_DURATION_TAIL: string :=
    ". That must be concerning for "
    + "you.\n\nTo help your healthcare "
    + "provider understand the timeline, "
    + "how long have you been experiencing "
    + "these symptoms?"
  const ENHANCED_MEDICATIONS: string :=
    "Thank you for that information. "
    + "Knowing the timeline helps a "
    + "lot.\n\nNow, are you currently "
    + "taking any medications? This "
    + "includes prescription medications, "
    + "over-the-counter drugs, vitamins, "
    + "or supplements. If you're not "
    + "taking anything, just say 'none'."
  const ENHANCED_ALLERGIES: string :=
    "I've noted that information "
    + "about your medications.\n\nLastly, "
    + "do you have any allergies I "
    + "should know about? This includes "
    + "food allergies, drug allergies, "
    + "or environmental allergies. "
    + "If you don't have any, just "
    + "say 'none'."
  const ENHANCED_SUMMARY: string :=
    "Perfect! Thank you for providing "
    + "all that information. You've "
    + "been very thorough.\n\n"
    + "I now have everything I need "
    + "to create a comprehensive summary "
    + "for your healthcare provider. "
    + "This will help them understand "
    + "your situation quickly and focus "
    + "on addressing your concerns.\n\n"
    + "Would you like me to generate "
    + "your medical summary now?"
  const ENHANCED_COMPLETE: string :=
    "Thank you for using our medical "
    + "intake system. I hope this helps "
    + "make your consultation more "
    + "effective!"
  const ENHANCED_DEFAULT: string :=
    "Thank you for that information. "
    + "Let me know if you have any "
    + "questions about the next step "
    + "in your intake process."

  /** The enhanced template for a step; the age and duration ones embed this turn's extraction. */
  function EnhancedTemplate(step: Step, e: Extraction): string {
    match step
    case Name => ENHANCED_NAME
    case Age => ENHANCED_AGE_HEAD + ExtractedNameOr(e, "") + ENHANCED_AGE_TAIL
    case Gender => ENHANCED_GENDER
    case Symptoms => ENHANCED_SYMPTOMS
    case Duration => ENHANCED_DURATION_HEAD + ExtractedSymptomsOr(e, "these symptoms") + ENHANCED_DURATION_TAIL
    case Medications => ENHANCED_MEDICATIONS
    case Allergies => ENHANCED_ALLERGIES
    case Summary => ENHANCED_SUMMARY
    case Complete => ENHANCED_COMPLETE
  }

  /**
   * `_get_enhanced_contextual_response`: the greeting marker wins over every
   * next step; otherwise the template keyed by the next step's name, and the
   * default text for a name the table does not hold. Nothing is appended.
   */
  function EnhancedResponse(nextStep: string, e: Extraction): (r: string)
    ensures e.Greeting? ==> r == ENHANCED_WELCOME
    ensures !e.Greeting? && ParseStep(nextStep).Some? ==> r == EnhancedTemplate(ParseStep(nextStep).value, e)
    ensures !e.Greeting? && ParseStep(nextStep).None? ==> r == ENHANCED_DEFAULT
  {
    if e.Greeting? then ENHANCED_WELCOME
    else
      match ParseStep(nextStep)
      case Some(s) => EnhancedTemplate(s, e)
      case None => ENHANCED_DEFAULT
  }

  /**
   * The age template greets the patient by the name extracted in this same
   * turn; when the name came in an earlier turn, the slot is left empty.
   */
  lemma EnhancedAgeEmbedsName(e: Extraction)
    requires !e.Greeting?
    ensures EnhancedResponse("age", e) == ENHANCED_AGE_HEAD + ExtractedNameOr(e, "") + ENHANCED_AGE_TAIL
    ensures e.NameValue? ==> Contains(e.name, EnhancedResponse("age", e))
  {
    StepNameRoundTrip(Age, "age");
    ContainsMiddle(ENHANCED_AGE_HEAD, ExtractedNameOr(e, ""), ENHANCED_AGE_TAIL);
  }

  /** The duration template names the symptoms extracted this turn, or "these symptoms". */
  lemma EnhancedDurationEmbedsSymptoms(e: Extraction)
    ensures !e.Greeting? ==>
              EnhancedResponse("duration", e)
              == ENHANCED_DURATION_HEAD + ExtractedSymptomsOr(e, "these symptoms") + ENHANCED_DURATION_TAIL
    ensures !e.SymptomsValue? && !e.Greeting? ==>
              Contains("these symptoms", EnhancedResponse("duration", e))
  {
    StepNameRoundTrip(Duration, "duration");
    if !e.Greeting? {
      ContainsMiddle(ENHANCED_DURATION_HEAD, ExtractedSymptomsOr(e, "these symptoms"), ENHANCED_DURATION_TAIL);
    }
  }

  /** The medications question takes nothing from the extraction. */
  lemma MedicationsTemplate(e: Extraction)
    ensures EnhancedTemplate(Medications, e) == ENHANCED_MEDICATIONS
  {
  }

  /** Keyed by a step's own name, the table gives that step's template. */
  lemma EnhancedForStep(s: Step, e: Extraction)
    requires !e.Greeting?
    ensures EnhancedResponse(StepName(s), e) == EnhancedTemplate(s, e)
  {
    StepNameRoundTrip(s, StepName(s));
  }

  /** Even when every field is answered, a greeting is answered with the welcome. */
  lemma GreetingOverridesSummary()
    ensures EnhancedResponse(StepName(Summary), Greeting) == ENHANCED_WELCOME
    ensures EnhancedResponse(StepName(Summary), NoData) == ENHANCED_SUMMARY
  {
    EnhancedForStep(Summary, NoData);
  }

  // ----- _get_contextual_response -----

  const THANKS: seq<string> := ["thank you", "thanks", "thx"]
  const YOU_ARE_WELCOME: string := "You're welcome! Let me know "
      + "if you need anything else."
  const CONTEXT_GREETING: string :=
    "Hello! I'm Dr. Sarah, and I'll "
    + "be helping you today. Could "
    + "you please tell me your name?"

  /** The acknowledgement for the field just extracted; the name one embeds the name. */
  function Acknowledgement(k: Key, e: Extraction): string {
    match k
    case NameKey => "Nice to meet you, " + ExtractedNameOr(e, "") + "! How old are you?"
    case AgeKey => "Thank you! What's your gender "
        + "- male, female, or other?"
    case GenderKey => "Thank you! Now, could you describe "
        + "your main symptoms or concerns? "
        + "Take your time."
    case SymptomsKey => "I understand. How long have "
        + "you been experiencing these "
        + "symptoms?"
    case DurationKey => "Got it. Are you currently taking "
        + "any medications? If none, just "
        + "say 'none'."
    case MedicationsKey => "Thank you. Do you have any allergies "
        + "I should know about? If none, "
        + "just say 'none'."
    case AllergiesKey =>
      ("Perfect! Thank you for providing "
        + "all that information. Let me "
        + "create a summary for your healthcare "
        + "provider.")
  }

  const REASK_DEFAULT: string := "Could you please provide that information?"

  /** The question asked again when nothing was extracted, keyed by the next step. */
  function Reask(step: Step): string {
    match step
    case Name => "I'd like to get your name for "
        + "the medical records. What should "
        + "I call you?"
    case Age => "Could you please tell me your age?"
    case Gender => "What's your gender? You can "
        + "say male, female, or other."
    case Symptoms => "What symptoms or health concerns "
        + "brought you in today?"
    case Duration => "How long have you been experiencing "
        + "these symptoms?"
    case Medications => "Are you currently taking any "
        + "medications? If none, just say 'none'."
    case Allergies => "Do you have any allergies I "
        + "should know about? If none, "
        + "just say 'none'."
    case Summary => "Let me prepare your medical summary now."
    case Complete => "Your intake is complete!"
  }

  /**
   * `_get_contextual_response`: a thank-you is answered first, whatever was
   * extracted; then a greeting; then the acknowledgement keyed by the field
   * just extracted (not by the next step); and only with nothing extracted
   * the question for the next step, or the default for an unknown one.
   */
  function ContextualResponse(message: string, nextStep: string, e: Extraction): (r: string)
    ensures Extractor.Normalize(message) in THANKS ==> r == YOU_ARE_WELCOME
    ensures Extractor.Normalize(message) !in THANKS && e.Greeting? ==> r == CONTEXT_GREETING
    ensures Extractor.Normalize(message) !in THANKS && ExtractedKey(e).Some? ==>
              r == Acknowledgement(ExtractedKey(e).value, e)
    ensures Extractor.Normalize(message) !in THANKS && e.NoData? ==>
              r == (if ParseStep(nextStep).Some? then Reask(ParseStep(nextStep).value) else REASK_DEFAULT)
  {
    if Extractor.Normalize(message) in THANKS then YOU_ARE_WELCOME
    else if e.Greeting? then CONTEXT_GREETING
    else if ExtractedKey(e).Some? then Acknowledgement(ExtractedKey(e).value, e)
    else
      match ParseStep(nextStep)
      case Some(s) => Reask(s)
      case None => REASK_DEFAULT
  }

  /**
   * The acknowledgement does not depend on the next step: after a name is
   * extracted the reply asks for the age even when the age is already known.
   */
  lemma AcknowledgementIgnoresNextStep(message: string, n1: string, n2: string, e: Extraction)
    requires ExtractedKey(e).Some? || e.Greeting?
    ensures ContextualResponse(message, n1, e) == ContextualResponse(message, n2, e)
  {
  }

  // ----- _get_default_friendly_response -----

  const FRIENDLY_DEFAULT: string := "Thank you. Let's continue with your intake."

  function FriendlyTemplate(step: Step, d: IntakeData): string {
    match step
    case Name => "Hello! I'm Dr. Sarah. I'm here "
        + "to help you today. May I have "
        + "your name please?"
    case Age => "Nice to meet you, " + OrElse(d.name, "there") + "! How old are you?"
    case Gender => "Thank you! And what's your gender "
        + "- male, female, or other?"
    case Symptoms => "I'd like to understand what's "
        + "bringing you in today. Can you "
        + "tell me about your symptoms "
        + "or concerns?"
    case Duration => "I see. How long have you been "
        + "experiencing these symptoms?"
    case Medications => "Thank you for sharing that. "
        + "Are you currently taking any "
        + "medications?"
    case Allergies => "And do you have any allergies "
        + "I should be aware of?"
    case Summary => "Thank you for providing all "
        + "that information. Let me summarize "
        + "what we've discussed and prepare "
        + "a report for your healthcare "
        + "provider."
    case Complete =>
      ("Perfect! I have everything I "
        + "need. Your intake is complete.")
  }

  /**
   * `_get_default_friendly_response`: the template keyed by the next step, the
   * age one greeting the stored name or "there"; the default otherwise.
   */
  function DefaultFriendlyResponse(nextStep: string, d: IntakeData): (r: string)
    ensures ParseStep(nextStep).Some? ==> r == FriendlyTemplate(ParseStep(nextStep).value, d)
    ensures ParseStep(nextStep).None? ==> r == FRIENDLY_DEFAULT
  {
    match ParseStep(nextStep)
    case Some(s) => FriendlyTemplate(s, d)
    case None => FRIENDLY_DEFAULT
  }

  /** The friendly age question names the patient when a name is stored, and "there" otherwise. */
  lemma FriendlyAgeGreetsByName(d: IntakeData)
    ensures IsSet(d, NameKey) ==> Contains(d.name.value, DefaultFriendlyResponse("age", d))
    ensures !IsSet(d, NameKey) ==> Contains("there", DefaultFriendlyResponse("age", d))
  {
    StepNameRoundTrip(Age, "age");
    ContainsMiddle("Nice to meet you, ", OrElse(d.name, "there"), "! How old are you?");
  }

  // ----- _generate_response -----

  const HELLO_ASK_NAME: string := "Hello! Nice to meet you. What's your name?"
  const ASK_AGAIN: string := "Could you please provide that "
      + "information again?"

  /** `step_questions`: a question for every step but `name`. */
  function StepQuestion(step: Step): (r: Option<string>)
    ensures r.Some? <==> step != Name
  {
    match step
    case Name => None
    case Age => Some("Thank you! How old are you?")
    case Gender => Some("What's your gender? (male/female/other)")
    case Symptoms => Some("Could you describe your main "
        + "symptoms or concerns? Take your "
        + "time and be as detailed as you'd like.")
    case Duration => Some("How long have you been experiencing "
        + "these symptoms?")
    case Medications => Some("Are you currently taking any "
        + "medications? If none, just say 'none'.")
    case Allergies => Some("Do you have any allergies I "
        + "should know about? If none, "
        + "just say 'none'.")
    case Summary => Some("Thank you for sharing all that "
        + "information. Let me create a "
        + "summary for your doctor.")
    case Complete => Some("Perfect! I have all the information "
        + "I need. Redirecting you to the "
        + "summary page...")
  }

  /** The clarifying question while stuck on a field step. */
  function Clarify(step: Step): (r: Option<string>)
    ensures r.Some? <==> StepRank(step) < 7
  {
    match step
    case Name => Some("I'd like to get your name for "
        + "the medical records. What should "
        + "I call you?")
    case Age => Some("Could you please tell me your age?")
    case Gender => Some("What's your gender? You can "
        + "say male, female, or other.")
    case Symptoms => Some("What symptoms or health concerns "
        + "brought you in today?")
    case Duration => Some("How long have you been experiencing "
        + "these symptoms?")
    case Medications => Some("Are you currently taking any medications?")
    case Allergies => Some("Do you have any allergies I "
        + "should know about?")
    case Summary => None
    case Complete => None
  }

  /**
   * `_generate_response`: a greeting at the name step; the question for a
   * next step that differs from the current one; the clarifying question for
   * the current field step; and only at `summary` or `complete` the text
   * service (`ai`), whose failure gives a fixed request to repeat.
   */
  function GenerateResponse(message: string, d: IntakeData, nextStep: string, ai: AIResult): (r: string)
    ensures d.currentStep == Name && Extractor.Normalize(message) in Extractor.GREETINGS ==> r == HELLO_ASK_NAME
    ensures var greeted := d.currentStep == Name && Extractor.Normalize(message) in Extractor.GREETINGS;
      var p := ParseStep(nextStep);
      var moved := p.Some? && p.value != Name && p.value != d.currentStep;
      && (!greeted && moved ==> r == StepQuestion(p.value).value)
      && (!greeted && !moved && StepRank(d.currentStep) < 7 ==> r == Clarify(d.currentStep).value)
      && (!greeted && !moved && StepRank(d.currentStep) >= 7 ==> r == (if ai.Ok? then Strip(ai.text) else ASK_AGAIN))
  {
    if d.currentStep == Name && Extractor.Normalize(message) in Extractor.GREETINGS then HELLO_ASK_NAME
    else
      var p := ParseStep(nextStep);
      if p.Some? && StepQuestion(p.value).Some? && p.value != d.currentStep then StepQuestion(p.value).value
      else if Clarify(d.currentStep).Some? then Clarify(d.currentStep).value
      else if ai.Ok? then Strip(ai.text)
      else ASK_AGAIN
  }

  /** The text service is consulted only when the current step is `summary` or `complete`. */
  lemma GenerateResponseServiceOnlyAtEnd(message: string, d: IntakeData, nextStep: string, a1: AIResult, a2: AIResult)
    requires StepRank(d.currentStep) < 7
    ensures GenerateResponse(message, d, nextStep, a1) == GenerateResponse(message, d, nextStep, a2)
  {
    assert Clarify(d.currentStep).Some?;
  }

  /** At `summary` with `summary` next, the reply is the service's stripped text or the fixed request. */
  lemma GenerateResponseReachesService(message: string, d: IntakeData, ai: AIResult)
    requires d.currentStep == Summary
    ensures GenerateResponse(message, d, "summary", ai) == (if ai.Ok? then Strip(ai.text) else ASK_AGAIN)
  {
    StepNameRoundTrip(Summary, "summary");
  }
}
