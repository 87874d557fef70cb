/**
 * The safety rules shared by the intake and chat paths: the fourteen
 * emergency phrases and the alert they trigger, the disclaimer note, and
 * the rules that append that note to a reply from the text service.
 */
module Safety {
  import opened Text

  const EMERGENCY_PHRASES: seq<string> := [
    "chest pain", "difficulty breathing", "can't breathe", "unconscious",
    "bleeding heavily", "severe bleeding", "heart attack", "stroke",
    "difficulty speaking", "weakness on one side", "severe headache",
    "sudden vision loss", "severe abdominal pain", "choking"]

  /** `any(keyword in message.lower() for keyword in emergency_keywords)`. */
  predicate IsEmergency(message: string) {
    AnyIn(EMERGENCY_PHRASES, Lower(message))
  }

  /** The two phrases whose presence (in any case) counts as a disclaimer. */
  const NOT_A_DIAGNOSIS: string := "not a diagnosis"
  const CONSULT: string := "consult"

  /** The disclaimer note, built around the first marker phrase (the rest holds the second). */
  const NOTE_HEAD: string := "\U{00E2}\U{0161}\U{00A0}\U{00EF}\U{00B8} **Important:** This is "
  const NOTE_REST: string := ". Please consult a licensed "
    + "medical professional for proper care."
  const DISCLAIMER_NOTE: string := NOTE_HEAD + NOT_A_DIAGNOSIS + NOTE_REST

  /** `"not a diagnosis" in text.lower() or "consult" in text.lower()`. */
  predicate HasDisclaimerMarker(text: string) {
    Contains(NOT_A_DIAGNOSIS, Lower(text)) || Contains(CONSULT, Lower(text))
  }

  /** The emergency test reads the message without regard to case. */
  lemma EmergencyIgnoresCase(message: string)
    ensures IsEmergency(Lower(message)) == IsEmergency(message)
  {
    LowerIdempotent(message);
  }

  /** The disclaimer test reads the text without regard to case. */
  lemma MarkerIgnoresCase(text: string)
    ensures HasDisclaimerMarker(Lower(text)) == HasDisclaimerMarker(text)
  {
    LowerIdempotent(text);
  }

  /** A text with a lower-case marker phrase anywhere in it carries the marker. */
  lemma MarkerAround(a: string, n: string, b: string)
    requires n == NOT_A_DIAGNOSIS
    ensures HasDisclaimerMarker(a + n + b)
  {
    LowerAppend(a + n, b);
    LowerAppend(a, n);
    LowerOfLowercase(n);
    assert Lower(a + n + b) == Lower(a) + n + Lower(b);
    ContainsMiddle(Lower(a), n, Lower(b));
  }

  /** Any text that ends with the disclaimer note carries the marker. */
  lemma EndsWithNoteHasMarker(x: string)
    ensures HasDisclaimerMarker(x + DISCLAIMER_NOTE)
  {
    AppendThree(x, NOTE_HEAD, NOT_A_DIAGNOSIS, NOTE_REST);
    MarkerAround(x + NOTE_HEAD, NOT_A_DIAGNOSIS, NOTE_REST);
  }

  const ALERT_HEAD: string :=
    "\U{00F0}\U{0178}\U{0161}\U{00A8} **EMERGENCY ALERT** \U{00F0}\U{0178}\U{0161}\U{00A8}\n\n"
    + "Based on your symptoms, you "
    + "should seek IMMEDIATE medical "
    + "attention. "
    + "Please go to the nearest emergency "
    + "room or call emergency services "
    + "right away.\n\n"
    + "If you're experiencing "
  const ALERT_TAIL: string :=
    ", this could be a serious medical "
    + "emergency that requires immediate "
    + "professional care.\n\n"

  /**
   * The emergency reply: the alert banner, the patient's message lower-cased,
   * and the disclaimer note at the end.
   */
  function EmergencyAlert(message: string): (r: string)
    ensures StartsWith(r, ALERT_HEAD)
    ensures Contains(Lower(message), r)
    ensures HasDisclaimerMarker(r)
  {
    var m := Lower(message);
    StartsWithAppend(ALERT_HEAD, ALERT_HEAD, m);
    StartsWithAppend(ALERT_HEAD + m, ALERT_HEAD, ALERT_TAIL);
    StartsWithAppend(ALERT_HEAD + m + ALERT_TAIL, ALERT_HEAD, DISCLAIMER_NOTE);
    ContainsMiddle(ALERT_HEAD, m, ALERT_TAIL);
    ContainsExtendRight(m, ALERT_HEAD + m + ALERT_TAIL, DISCLAIMER_NOTE);
    EndsWithNoteHasMarker(ALERT_HEAD + m + ALERT_TAIL);
    ALERT_HEAD + m + ALERT_TAIL + DISCLAIMER_NOTE
  }

  /**
   * The disclaimer-append rule: a reply that mentions neither marker phrase
   * gets a blank line and the note appended; a reply that does is left as it is.
   */
  function EnsureDisclaimer(text: string): (r: string)
    ensures HasDisclaimerMarker(r)
    ensures HasDisclaimerMarker(text) ==> r == text
    ensures StartsWith(r, text)
  {
    if HasDisclaimerMarker(text) then text
    else
      EndsWithNoteHasMarker(text + "\n\n");
      StartsWithAppend(text, text, "\n\n");
      StartsWithAppend(text + "\n\n", text, DISCLAIMER_NOTE);
      text + "\n\n" + DISCLAIMER_NOTE
  }

  /** Appending the disclaimer a second time changes nothing. */
  lemma EnsureDisclaimerIdempotent(text: string)
    ensures EnsureDisclaimer(EnsureDisclaimer(text)) == EnsureDisclaimer(text)
  {
  }

  const MEDICAL_WORDS: seq<string> := ["symptom", "pain", "medical", "health", "condition"]

  /** `any(medical_word in text.lower() for medical_word in [...])`. */
  predicate MentionsMedical(text: string) {
    AnyIn(MEDICAL_WORDS, Lower(text))
  }

  /** The medical-word test reads the text without regard to case. */
  lemma MedicalIgnoresCase(text: string)
    ensures MentionsMedical(Lower(text)) == MentionsMedical(text)
  {
    LowerIdempotent(text);
  }

  /**
   * The intake path's treatment of a reply from the text service: strip it,
   * and append the disclaimer only when the reply mentions a medical word.
   */
  function IntakeAIReply(text: string): (r: string)
    ensures StartsWith(r, Strip(text))
    ensures MentionsMedical(Strip(text)) ==> HasDisclaimerMarker(r)
    ensures !MentionsMedical(Strip(text)) || HasDisclaimerMarker(Strip(text)) ==> r == Strip(text)
  {
    var t := Strip(text);
    if MentionsMedical(t) then EnsureDisclaimer(t) else t
  }

  /** The chat path's treatment of a reply: strip it and always ensure the disclaimer. */
  function ChatAIReply(text: string): (r: string)
    ensures StartsWith(r, Strip(text))
    ensures HasDisclaimerMarker(r)
    ensures HasDisclaimerMarker(Strip(text)) ==> r == Strip(text)
  {
    EnsureDisclaimer(Strip(text))
  }

  /** A message that is emergency stays one whatever is written around it. */
  lemma EmergencyMonotone(a: string, message: string, b: string)
    requires IsEmergency(message)
    ensures IsEmergency(a + message + b)
  {
    var i :| 0 <= i < |EMERGENCY_PHRASES| && Contains(EMERGENCY_PHRASES[i], Lower(message));
    LowerAppend(a + message, b);
    LowerAppend(a, message);
    ContainsExtendLeft(EMERGENCY_PHRASES[i], Lower(a), Lower(message));
    ContainsExtendRight(EMERGENCY_PHRASES[i], Lower(a) + Lower(message), Lower(b));
  }

  /**
   * The phrase test does not read negation: a message that mentions an
   * emergency phrase in any surrounding words, "no chest pain" included,
   * is an emergency.
   */
  lemma NegatedPhraseIsEmergency(a: string, b: string)
    ensures IsEmergency(a + "chest pain" + b)
  {
    LowerOfLowercase("chest pain");
    assert Contains(EMERGENCY_PHRASES[0], Lower("chest pain")) by {
      ContainsMiddle([], "chest pain", []);
      assert [] + "chest pain" + [] == "chest pain";
    }
    EmergencyMonotone(a, "chest pain", b);
  }

  /** Each emergency phrase holds one of the letters b, c, s or w. */
  lemma PhraseLetter(i: nat) returns (k: nat)
    requires i < |EMERGENCY_PHRASES|
    ensures k < |EMERGENCY_PHRASES[i]|
    ensures EMERGENCY_PHRASES[i][k] in "bcsw"
  {
    if i == 1 || i == 8 { k := 5; }
    else if i == 3 { k := 2; }
    else if i == 6 { k := 10; }
    else { k := 0; }
  }

  /**
   * A text that is only whitespace around a string free of the letters
   * b, c, s and w is never an emergency.
   */
  lemma NoEmergencyWithoutLetters(message: string)
    requires forall c :: c in Strip(Lower(message)) ==> c !in "bcsw"
    ensures !IsEmergency(message)
  {
    if IsEmergency(message) {
      var i :| 0 <= i < |EMERGENCY_PHRASES| && Contains(EMERGENCY_PHRASES[i], Lower(message));
      var k := PhraseLetter(i);
      PhraseAbsent(EMERGENCY_PHRASES[i], Lower(message), k);
      assert false;
    }
  }

  /** A phrase holding one of b, c, s, w does not occur in a text whose stripped form lacks them. */
  lemma PhraseAbsent(p: string, t: string, k: nat)
    requires k < |p| && p[k] in "bcsw"
    requires forall c :: c in Strip(t) ==> c !in "bcsw"
    ensures !Contains(p, t)
  {
    if Contains(p, t) {
      OccurrenceCharInStrip(p, t, k);
      assert false;
    }
  }
}
