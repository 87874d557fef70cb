/**
 * The free chat path (`intelligent_medical_conversation`): the last five
 * messages of the history are rendered into a context block, an emergency
 * phrase gets the alert, a reply from the text service gets the disclaimer,
 * and every failure ends in the rule-based fallback
 * (`_get_fallback_medical_response`).
 */
module Chat {
  import opened Text
  import opened IntakeModel
  import opened Safety
  import Extractor

  // ----- the history context -----

  /**
   * One entry of the caller's history, a dictionary of strings; either key
   * may be missing.
   */
  datatype Message = Message(role: Option<string>, content: Option<string>)

  const HISTORY_HEADER: string := "\n\nConversation History:\n"
  const WINDOW: nat := 5

  /** `conversation_history[-5:]`: the last five entries, or all of them when there are fewer. */
  function Window(history: seq<Message>): (w: seq<Message>)
    ensures |w| == if |history| < WINDOW then |history| else WINDOW
    ensures w == history[|history| - |w|..]
  {
    if |history| <= WINDOW then history else history[|history| - WINDOW..]
  }

  /** `"User" if msg["role"] == "user" else "Assistant"`. */
  function Speaker(role: string): string {
    if role == "user" then "User" else "Assistant"
  }

  /** The line an entry contributes, or `None` when a key is missing (a `KeyError`). */
  function HistoryLine(m: Message): (r: Option<string>)
    ensures r.Some? <==> m.role.Some? && m.content.Some?
  {
    if m.role.None? || m.content.None? then None
    else Some(Speaker(m.role.value) + ": " + m.content.value + "\n")
  }

  /** The lines of the entries in order, or `None` as soon as one entry lacks a key. */
  function HistoryLines(w: seq<Message>): (r: Option<string>)
    ensures r.Some? <==> forall i :: 0 <= i < |w| ==> HistoryLine(w[i]).Some?
    decreases |w|
  {
    if w == [] then Some("")
    else
      var init := w[..|w| - 1];
      assert forall i :: 0 <= i < |init| ==> init[i] == w[i];
      match HistoryLines(init)
      case None => None
      case Some(prefix) =>
        match HistoryLine(w[|w| - 1])
        case None => None
        case Some(line) => Some(prefix + line)
  }

  /**
   * The context block: empty for an empty history, otherwise the header and
   * the lines of the last five entries; `None` stands for the `KeyError` an
   * incomplete entry among them raises.
   */
  function HistoryContext(history: seq<Message>): (r: Option<string>)
    ensures history == [] ==> r == Some("")
    ensures history != [] && r.Some? ==> StartsWith(r.value, HISTORY_HEADER)
  {
    if history == [] then Some("")
    else
      match HistoryLines(Window(history))
      case None => None
      case Some(lines) =>
        assert (HISTORY_HEADER + lines)[..|HISTORY_HEADER|] == HISTORY_HEADER;
        Some(HISTORY_HEADER + lines)
  }

  /** One more entry: its line is appended, or the run fails. */
  lemma HistoryLinesStep(w: seq<Message>, i: nat)
    requires i < |w|
    ensures HistoryLines(w[..i + 1]) ==
              if HistoryLines(w[..i]).Some? && HistoryLine(w[i]).Some?
              then Some(HistoryLines(w[..i]).value + HistoryLine(w[i]).value)
              else None
  {
    assert w[..i + 1][..i] == w[..i];
    assert w[..i + 1][i] == w[i];
  }

  /** The loop of the source: start from the header and append one line per entry of the window. */
  method BuildHistoryContext(history: seq<Message>) returns (context: Option<string>)
    ensures context == HistoryContext(history)
  {
    if history == [] {
      return Some("");
    }
    var w := Window(history);
    var acc := HISTORY_HEADER;
    var i := 0;
    while i < |w|
      invariant 0 <= i <= |w|
      invariant HistoryLines(w[..i]).Some?
      invariant acc == HISTORY_HEADER + HistoryLines(w[..i]).value
    {
      var m := w[i];
      HistoryLinesStep(w, i);
      if m.role.None? || m.content.None? {
        HistoryLinesNoneExtends(w, i + 1);
        return None;
      }
      var line := Speaker(m.role.value) + ": " + m.content.value + "\n";
      assert HistoryLine(m) == Some(line);
      ConcatAssoc(HISTORY_HEADER, HistoryLines(w[..i]).value, line);
      acc := acc + line;
      i := i + 1;
    }
    assert w[..i] == w;
    return Some(acc);
  }

  /** Once a prefix of the entries fails, the whole run fails. */
  lemma HistoryLinesNoneExtends(w: seq<Message>, k: nat)
    requires k <= |w| && HistoryLines(w[..k]).None?
    ensures HistoryLines(w).None?
  {
    var i :| 0 <= i < k && HistoryLine(w[..k][i]).None?;
    assert w[i] == w[..k][i];
  }

  /** Entries older than the last five play no part, whatever they hold. */
  lemma OnlyLastFiveCount(older: seq<Message>, recent: seq<Message>)
    requires |recent| >= WINDOW
    ensures HistoryContext(older + recent) == HistoryContext(recent)
  {
    assert Window(older + recent) == Window(recent);
  }

  /** An incomplete entry among the last five makes the whole context fail. */
  lemma IncompleteRecentEntryFails(history: seq<Message>, i: nat)
    requires i < |history| && |history| - i <= WINDOW
    requires history[i].role.None? || history[i].content.None?
    ensures HistoryContext(history).None?
  {
    var w := Window(history);
    assert w[i - (|history| - |w|)] == history[i];
  }

  // ----- the rule-based fallback -----

  const CHAT_GREETING_WORDS: seq<string> := ["hi", "hello", "hey", "good morning", "good afternoon"]
  const CHAT_SYMPTOM_WORDS: seq<string> := ["pain", "hurt", "ache", "tired", "fever", "sick", "nausea"]
  const CHAT_DURATION_WORDS: seq<string> := ["day", "week", "month", "hour", "long"]

  const FALLBACK_GREETING_BODY: string :=
    "Hello! I'm Dr. Sarah, your AI "
    + "medical assistant. I'm here "
    + "to help you with your health "
    + "concerns.\n\n"
    + "I understand you're reaching "
    + "out for medical guidance. While "
    + "I'd love to provide more detailed "
    + "responses, I'm currently experiencing "
    + "high usage.\n\n"
    + "To help you effectively, could "
    + "you please tell me:\n"
    + "1. What symptoms are you experiencing?\n"
    + "2. How long have you had these symptoms?\n"
    + "3. Are you currently taking "
    + "any medications?\n\n"
  const FALLBACK_SYMPTOM_HEAD: string := "I'm sorry to hear you're experiencing "
  const FALLBACK_SYMPTOM_TAIL: string :=
    ". That must be concerning for you.\n\n"
    + "To better understand your situation, "
    + "could you tell me:\n"
    + "1. How long have you been experiencing "
    + "these symptoms?\n"
    + "2. On a scale of 1-10, how would "
    + "you rate the severity?\n"
    + "3. Have you noticed anything "
    + "that makes it better or worse?\n\n"
    + "For immediate relief, you might consider:\n"
    + "- Getting adequate rest\n"
    + "- Staying hydrated\n"
    + "- Monitoring your symptoms\n\n"
    + "However, if your symptoms are "
    + "severe, getting worse, or you're "
    + "concerned, please don't hesitate "
    + "to contact a healthcare provider.\n\n"
  const FALLBACK_DURATION_HEAD: string := "Thank you for sharing that information. "
  const FALLBACK_DURATION_TAIL: string :=
    " can help me understand your "
    + "situation better.\n\n"
    + "Based on what you've told me, "
    + "here are some general wellness "
    + "suggestions:\n"
    + "- Monitor your symptoms and "
    + "how they progress\n"
    + "- Keep track of any triggers or patterns\n"
    + "- Maintain good hydration and nutrition\n"
    + "- Get adequate rest\n\n"
    + "If your symptoms are persistent, "
    + "getting worse, or interfering "
    + "with your daily life, it would "
    + "be wise to consult with a healthcare "
    + "provider who can properly evaluate "
    + "your condition.\n\n"
  const FALLBACK_DEFAULT_BODY: string :=
    "I hear you, and I want to help. "
    + "While I'm currently experiencing "
    + "high usage and can't provide "
    + "detailed AI responses, I'm still "
    + "here to offer support.\n\n"
    + "For any health concerns like "
    + "what you've described, I'd recommend:\n"
    + "1. Monitoring your symptoms carefully\n"
    + "2. Noting any changes or patterns\n"
    + "3. Consulting with a healthcare "
    + "provider if you're concerned\n\n"
    + "If this is urgent or you're "
    + "experiencing severe symptoms, "
    + "please don't hesitate to contact "
    + "a medical professional or emergency "
    + "services.\n\n"

  /**
   * The fallback text: greeting substrings first, then symptom words, then
   * duration words, then the default; every text ends with the disclaimer
   * note. The symptom reply echoes the lower-cased message, the duration
   * reply the message as typed.
   */
  function FallbackText(message: string): (r: string)
    ensures HasDisclaimerMarker(r)
    ensures var ml := Extractor.Normalize(message);
      && (AnyIn(CHAT_GREETING_WORDS, ml) ==> r == FALLBACK_GREETING_BODY + DISCLAIMER_NOTE)
      && (!AnyIn(CHAT_GREETING_WORDS, ml) && AnyIn(CHAT_SYMPTOM_WORDS, ml) ==>
            r == FALLBACK_SYMPTOM_HEAD + Lower(message) + FALLBACK_SYMPTOM_TAIL + DISCLAIMER_NOTE
            && Contains(Lower(message), r))
      && (!AnyIn(CHAT_GREETING_WORDS, ml) && !AnyIn(CHAT_SYMPTOM_WORDS, ml) && AnyIn(CHAT_DURATION_WORDS, ml) ==>
            r == FALLBACK_DURATION_HEAD + message + FALLBACK_DURATION_TAIL + DISCLAIMER_NOTE
            && Contains(message, r))
      && (!AnyIn(CHAT_GREETING_WORDS, ml) && !AnyIn(CHAT_SYMPTOM_WORDS, ml) && !AnyIn(CHAT_DURATION_WORDS, ml) ==>
            r == FALLBACK_DEFAULT_BODY + DISCLAIMER_NOTE)
  {
    var ml := Extractor.Normalize(message);
    if AnyIn(CHAT_GREETING_WORDS, ml) then
      EndsWithNoteHasMarker(FALLBACK_GREETING_BODY);
      FALLBACK_GREETING_BODY + DISCLAIMER_NOTE
    else if AnyIn(CHAT_SYMPTOM_WORDS, ml) then
      EchoReply(FALLBACK_SYMPTOM_HEAD, Lower(message), FALLBACK_SYMPTOM_TAIL)
    else if AnyIn(CHAT_DURATION_WORDS, ml) then
      EchoReply(FALLBACK_DURATION_HEAD, message, FALLBACK_DURATION_TAIL)
    else
      EndsWithNoteHasMarker(FALLBACK_DEFAULT_BODY);
      FALLBACK_DEFAULT_BODY + DISCLAIMER_NOTE
  }

  /** A reply that echoes a text between a head and a tail, closed by the disclaimer note. */
  function EchoReply(head: string, echo: string, tail: string): (r: string)
    ensures r == head + echo + tail + DISCLAIMER_NOTE
    ensures StartsWith(r, head) && Contains(echo, r) && HasDisclaimerMarker(r)
  {
    StartsWithAppend(head, head, echo);
    StartsWithAppend(head + echo, head, tail);
    StartsWithAppend(head + echo + tail, head, DISCLAIMER_NOTE);
    ContainsMiddle(head, echo, tail);
    ContainsExtendRight(echo, head + echo + tail, DISCLAIMER_NOTE);
    EndsWithNoteHasMarker(head + echo + tail);
    head + echo + tail + DISCLAIMER_NOTE
  }

  /**
   * What the chat path returns: the reply and the flags `is_emergency`,
   * `requires_followup`, `conversation_complete`, and whether the
   * `fallback_used` key is set.
   */
  datatype ChatResult = ChatResult(
    response: string,
    isEmergency: bool,
    requiresFollowup: bool,
    conversationComplete: bool,
    fallbackUsed: bool)

  /** `_get_fallback_medical_response`: never an emergency, always marked as the fallback. */
  function FallbackMedicalResponse(message: string): (r: ChatResult)
    ensures !r.isEmergency && r.fallbackUsed && r.requiresFollowup && !r.conversationComplete
    ensures HasDisclaimerMarker(r.response)
    ensures r.response == FallbackText(message)
  {
    ChatResult(FallbackText(message), false, true, false, true)
  }

  /**
   * "hi" inside any word of a lower-case message ("this", "chills",
   * "while") is read as a greeting.
   */
  lemma HiAnywhereGreets(a: string, b: string)
    requires Lower(a) == a && Lower(b) == b
    ensures FallbackText(a + "hi" + b) == FALLBACK_GREETING_BODY + DISCLAIMER_NOTE
  {
    var m := a + "hi" + b;
    LowerAppend(a + "hi", b);
    LowerAppend(a, "hi");
    LowerOfLowercase("hi");
    assert Lower(m) == m;
    ContainsMiddle(a, "hi", b);
    ContainsSurvivesStrip("hi", m);
    assert Contains(CHAT_GREETING_WORDS[0], Extractor.Normalize(m));
  }

  // ----- intelligent_medical_conversation -----

  /**
   * `intelligent_medical_conversation`. `ai` stands for the text service's
   * outcome. A history entry without a role or a content raises before the
   * emergency check, and the outer handler answers with the fallback.
   */
  function MedicalConversation(message: string, history: seq<Message>, ai: AIResult): (r: ChatResult)
    ensures HasDisclaimerMarker(r.response)
    ensures r.requiresFollowup && !r.conversationComplete
    ensures HistoryContext(history).None? ==> r == FallbackMedicalResponse(message)
    ensures HistoryContext(history).Some? ==> (r.isEmergency <==> IsEmergency(message))
    ensures r.isEmergency ==> r.response == EmergencyAlert(message) && !r.fallbackUsed
    ensures !IsEmergency(message) && ai.Err? ==> r == FallbackMedicalResponse(message)
    ensures HistoryContext(history).Some? && !IsEmergency(message) && ai.Ok? ==>
              r.response == ChatAIReply(ai.text) && !r.fallbackUsed && !r.isEmergency
  {
    if HistoryContext(history).None? then FallbackMedicalResponse(message)
    else if IsEmergency(message) then ChatResult(EmergencyAlert(message), true, true, false, false)
    else
      match ai
      case Ok(text) => ChatResult(ChatAIReply(text), false, true, false, false)
      case Err(_) => FallbackMedicalResponse(message)
  }

  /**
   * The quota check and the re-raise end in the same place: which error the
   * service reports plays no part.
   */
  lemma ErrorKindIrrelevant(message: string, history: seq<Message>, e1: string, e2: string)
    ensures MedicalConversation(message, history, Err(e1)) == MedicalConversation(message, history, Err(e2))
  {
  }

  /**
   * As written, an incomplete history entry hides an emergency: the phrase
   * is never checked, and the fallback answers with `is_emergency` false.
   */
  lemma IncompleteHistoryMasksEmergency(message: string, history: seq<Message>, ai: AIResult)
    requires IsEmergency(message) && HistoryContext(history).None?
    ensures !MedicalConversation(message, history, ai).isEmergency
    ensures MedicalConversation(message, history, ai).fallbackUsed
  {
  }

  /** "chest pain" with a history entry lacking its role is answered as no emergency. */
  lemma ChestPainWithRolelessEntry(message: string, ai: AIResult)
    requires message == "chest pain"
    ensures IsEmergency(message)
    ensures !MedicalConversation(message, [Message(None, Some("hello"))], ai).isEmergency
  {
    NegatedPhraseIsEmergency("", "");
    assert "" + "chest pain" + "" == message;
    IncompleteRecentEntryFails([Message(None, Some("hello"))], 0);
  }

  /**
   * The evidently intended order: the emergency check first, so that no
   * history, however malformed, hides the alert.
   */
  function MedicalConversationChecked(message: string, history: seq<Message>, ai: AIResult): (r: ChatResult)
    ensures r.isEmergency <==> IsEmergency(message)
    ensures r.isEmergency ==> r.response == EmergencyAlert(message) && !r.fallbackUsed
    ensures HasDisclaimerMarker(r.response)
  {
    if IsEmergency(message) then ChatResult(EmergencyAlert(message), true, true, false, false)
    else MedicalConversation(message, history, ai)
  }

  /** With a complete history the corrected order changes nothing. */
  lemma CheckedAgreesOnCompleteHistory(message: string, history: seq<Message>, ai: AIResult)
    requires HistoryContext(history).Some?
    ensures MedicalConversationChecked(message, history, ai) == MedicalConversation(message, history, ai)
  {
  }
}
