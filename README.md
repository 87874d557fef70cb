# Med-Q intake dialogue controller, modelled in Dafny

Med-Q is a medical-intake assistant. Its controller `AIService`, in
`server/app/services/ai_service.py`, collects these fields one turn at a time:
- name, age, gender;
- symptoms, duration;
- medications, allergies.

It then builds a clinical summary. The text-generation service does the
phrasing. Every decision around that service is rule-based: what a turn
extracts, which question comes next, when an emergency alert replaces the
dialogue, the canned replies used when the service fails, and the rule-based
summary. That decision logic is what this project models and proves
properties of.

The modules follow the controller's parts:

| file | module | models |
|---|---|---|
| `text.dfy` | `Text` | the Python string operations the rules use: `lower()` (ASCII letters), `strip()` (the `str.isspace` set), `sub in s`, `any(...)`, the first `\d+` run, `str(n)` |
| `intake_model.dfy` | `IntakeModel` | `IntakeStep`, `Gender`, `Severity`, `IntakeData`; the one-key extraction result; Python truthiness of a stored field |
| `extractor.dfy` | `Extractor` | `_smart_extract_data` and its per-step rules |
| `resolver.dfy` | `Resolver` | `_determine_next_step_from_data`, `_determine_next_step`, `_determine_next_step_name` |
| `safety.dfy` | `Safety` | the emergency phrase test, the emergency alert, the disclaimer-append rules of the intake and chat paths |
| `responses.dfy` | `Responses` | the deterministic reply tables: enhanced, contextual, default friendly, `_generate_response` |
| `intake_turn.dfy` | `IntakeTurn` | `process_intake_message` and `_get_intelligent_intake_response` |
| `scenarios.dfy` | `Scenarios` | whole turns: a record with name and age, a duration answer at the duration step |
| `chat.dfy` | `Chat` | `intelligent_medical_conversation` and `_get_fallback_medical_response` |
| `summary.dfy` | `Summary` | severity, recommendations, the four keyword tables, the rule-based narrative, `StructuredData` assembly, `generate_medical_summary`, the emergency fallback summary |

The text service is never called. Each operation that would call it takes
its outcome as a parameter `ai: AIResult`: `Ok(text)` for a reply, `Err(msg)`
for any exception. The fallback branches are therefore ordinary cases of
the model.

The emoji, bullets and degree signs in the source's replies are stored as
already double-encoded text. `🚨` appears there as the four characters
U+00F0 U+0178 U+0161 U+00A8, for example. The string constants here copy
those code points exactly as the file holds them.

Behaviours of the code worth knowing, all of which the model keeps:
- **Emergency check order.** `process_intake_message` extracts and resolves
  the next step before it checks for emergency phrases. The emergency result
  therefore carries this turn's extraction (unfiltered) and the resolved
  next step.
- **Emergency phrases.** The list at lines 289-294 holds 14 phrases, and
  the test is a plain substring search in the lower-cased message.
- **Duration sentinels.** The duration rule treats only `""` and `"none"`
  as blank. `"no"` and `"nothing"` without a digit give nothing only
  because they name no unit and hold no digit.
- **Intake disclaimer.** The intake path appends the disclaimer only when
  the service's reply also mentions a medical word. The chat path always
  ensures it.
- **Non-emergency result.** It has no `is_emergency` key. The model
  returns `emergency: None` in that case.

## Model

| member | source | states |
|---|---|---|
| Text.Lower | server/app/services/ai_service.py:435 | `lower()` keeps the length and maps each character on its own; only ASCII upper-case letters change |
| Text.StripLeft | server/app/services/ai_service.py:435 | the result is a suffix that starts with a non-space, and everything dropped is whitespace |
| Text.StripRight | server/app/services/ai_service.py:435 | the result is a prefix that ends with a non-space, and everything dropped is whitespace |
| Text.Strip | server/app/services/ai_service.py:435 | `strip()` keeps one contiguous slice whose ends are not whitespace; everything cut away on either side is whitespace |
| Text.StripKeepsNonSpace | server/app/services/ai_service.py:435 | every non-space character of the text survives `strip()` |
| Text.StripLower | server/app/services/ai_service.py:435 | `s.lower().strip() == s.strip().lower()`: the order of the two steps in the normal form does not matter |
| Text.LowerIdempotent | server/app/services/ai_service.py:435 | lower-casing twice is lower-casing once |
| Text.ContainsSurvivesStrip | server/app/services/ai_service.py:435 | an occurrence of a phrase that neither starts nor ends with whitespace is still found after stripping |
| Text.ContainsAt | server/app/services/ai_service.py:296 | the recursive substring test agrees with "occurs at some index", Python's meaning of `sub in s` |
| Text.NatToString | server/app/services/ai_service.py:869 | `str(n)` is a non-empty digit string whose decimal value is `n`, with no leading zero: it opens with "0" exactly for 0 |
| Text.IntToString | server/app/services/ai_service.py:869 | `str(n)` for any integer: the canonical decimal of a non-negative `n`, and "-" before that of `-n` otherwise |
| IntakeModel.StepNameRoundTrip | server/app/models/pydantic_models.py:16-25 | the enum values and parsing are inverse, in both directions |
| IntakeModel.KeyOfStep | server/app/services/ai_service.py:502-515 | exactly the seven field steps ask for a field; the field's position in the question order is the step's rank, and its step is the step itself |
| IntakeModel.OrElse | server/app/services/ai_service.py:795-797 | `x or default`: the stored text when it is present and non-empty, otherwise the default |
| IntakeModel.FitsStepKey | server/app/services/ai_service.py:433-494 | an extraction a step can produce carries only that step's own field; `summary` and `complete` extract nothing |
| Extractor.NormalizeIsLowerStrip | server/app/services/ai_service.py:435 | the normal form is the lower-cased stripped message; it is empty exactly when the stripped message is |
| Extractor.FirstDigitRun | server/app/services/ai_service.py:448-450 | the first `\d+` match exists exactly when the message has a digit, and is a non-empty run of digits |
| Extractor.ExtractAge | server/app/services/ai_service.py:445-453 | the age step gives nothing or an age in [1, 150] |
| Extractor.ExtractGender | server/app/services/ai_service.py:455-462 | the gender step gives nothing or a gender |
| Extractor.ExtractName | server/app/services/ai_service.py:437-443 | the name step gives the greeting marker or a name, never nothing |
| Extractor.ExtractSymptoms | server/app/services/ai_service.py:464-467 | the symptoms step gives nothing or non-empty symptoms |
| Extractor.ExtractDuration | server/app/services/ai_service.py:469-478 | the duration step gives nothing or a non-empty duration |
| Extractor.NegatableAnswer | server/app/services/ai_service.py:480-492 | a medications or allergies answer, when there is one, is non-empty |
| Extractor.ExtractData | server/app/services/ai_service.py:433-494 | the dispatch fills only the current step's field; the greeting marker comes only from a greeting; every stored value other than a name is truthy |
| Extractor.DispatchDuration | server/app/services/ai_service.py:469-478 | at the duration step the dispatch applies the duration rule |
| Extractor.NameRule | server/app/services/ai_service.py:437-443 | the marker comes exactly when the normal form is one of the six greetings; otherwise, the empty answer included, the name is the stripped message; no stored name is a greeting |
| Extractor.AgeFromFirstRun | server/app/services/ai_service.py:445-453 | for any digit-free prefix, run and non-continuing rest, the age is that run's value if it lies in [1, 150], and nothing otherwise |
| Extractor.FirstRunOf | server/app/services/ai_service.py:448-450 | the first digit run of such a message is exactly that run |
| Extractor.AgeNeedsDigit | server/app/services/ai_service.py:448-453 | a message without a digit never yields an age |
| Extractor.AgeFromLeadingRun | server/app/services/ai_service.py:445-453 | a message that opens with digits is read from that opening run |
| Extractor.AgeExampleInRange | server/app/services/ai_service.py:445-453 | "45 years" gives 45 |
| Extractor.AgeExampleTooOld | server/app/services/ai_service.py:445-453 | "200" gives nothing |
| Extractor.AgeExampleLaterNumberIgnored | server/app/services/ai_service.py:445-453 | "200 or 45" gives nothing: the later number is never tried |
| Extractor.MaleWordsMeanMOrBoy | server/app/services/ai_service.py:456 | the six male words match exactly the texts that contain "m" or "boy" |
| Extractor.FemaleWordsMeaning | server/app/services/ai_service.py:458 | a female-word match means "girl" or an "m" is present; "girl" alone suffices |
| Extractor.GenderRule | server/app/services/ai_service.py:455-462 | male exactly when the answer contains "m" or "boy"; female only without that and with a female word; other only without either and with an other word; nothing otherwise |
| Extractor.LetterMMeansMale | server/app/services/ai_service.py:456-457 | any answer holding an "m" is classified male |
| Extractor.FemaleWordsYieldMale | server/app/services/ai_service.py:455-459 | "female" and "woman" are both classified male |
| Extractor.SymptomsRule | server/app/services/ai_service.py:464-467 | symptoms are dropped exactly for "", "none" and "nothing"; otherwise the stripped message is kept |
| Extractor.DurationRule | server/app/services/ai_service.py:469-478 | blank answers give nothing; a unit word keeps the stripped text; digits without a unit get " days"; anything else gives nothing |
| Extractor.DaysSuffixNamesUnit | server/app/services/ai_service.py:476-477 | the appended " days" always names a time unit |
| Extractor.DurationNamesUnit | server/app/services/ai_service.py:469-478 | every stored duration is non-empty and names a time unit once lower-cased |
| Extractor.NegatableRule | server/app/services/ai_service.py:480-492 | the four negative answers become "none"; any other non-empty answer is kept stripped; only the empty answer gives nothing |
| Resolver.FirstUnsetIndex | server/app/services/ai_service.py:502-517 | reference definition: every key before the index is set, and the key at the index is not |
| Resolver.NextStepFromData | server/app/services/ai_service.py:496-517 | never `complete`; the greeting marker forces `name`; `summary` exactly when all seven fields are set; otherwise a step whose field is unset and all earlier fields set |
| Resolver.AllSevenSet | server/app/services/ai_service.py:502-517 | the seven checks cover every field |
| Resolver.NextStepIsFirstUnset | server/app/services/ai_service.py:502-517 | without the marker, the answer is the first unset position of the field order |
| Resolver.ResolverIgnoresCurrentStep | server/app/services/ai_service.py:496-517 | the caller's `current_step` plays no part in the answer |
| Resolver.NextStep | server/app/services/ai_service.py:564-587 | the twin resolver agrees with the merged-data resolver on a record without the marker |
| Resolver.NextStepName | server/app/services/ai_service.py:634-648 | a step's successor in the step list, `complete` after `summary`, and `name` for any string the list does not hold |
| Resolver.NextStepNameOfStep | server/app/services/ai_service.py:634-648 | on step names the successor is exactly one step further, so only `summary` leads to `complete` and nothing leads back to `name` |
| Safety.EmergencyIgnoresCase | server/app/services/ai_service.py:296 | the emergency test lower-cases the message, so lower-casing it first changes nothing |
| Safety.MarkerIgnoresCase | server/app/services/ai_service.py:162 | the disclaimer test lower-cases the reply, so lower-casing it first changes nothing |
| Safety.MedicalIgnoresCase | server/app/services/ai_service.py:378 | the medical-word test lower-cases the reply, so lower-casing it first changes nothing |
| Safety.EndsWithNoteHasMarker | server/app/services/ai_service.py:162-163 | any text ending with the disclaimer note passes the disclaimer test |
| Safety.EmergencyAlert | server/app/services/ai_service.py:299-305 | the alert opens with the banner, embeds the lower-cased message, and carries the disclaimer |
| Safety.EnsureDisclaimer | server/app/services/ai_service.py:161-163 | the result always passes the disclaimer test, extends the reply, and is the reply itself when the reply already passes |
| Safety.EnsureDisclaimerIdempotent | server/app/services/ai_service.py:161-163 | applying the rule twice is applying it once |
| Safety.IntakeAIReply | server/app/services/ai_service.py:374-382 | the stripped reply is kept as a prefix; the disclaimer is guaranteed only when a medical word appears, and nothing is added otherwise |
| Safety.ChatAIReply | server/app/services/ai_service.py:159-163 | the stripped reply is kept as a prefix and always passes the disclaimer test |
| Safety.EmergencyMonotone | server/app/services/ai_service.py:289-296 | an emergency message stays one whatever is written around it |
| Safety.NegatedPhraseIsEmergency | server/app/services/ai_service.py:289-296 | "no chest pain" is an emergency too: the test does not read negation |
| Safety.PhraseLetter | server/app/services/ai_service.py:289-294 | every one of the 14 phrases holds one of the letters b, c, s, w |
| Safety.NoEmergencyWithoutLetters | server/app/services/ai_service.py:289-296 | a message whose normal form lacks b, c, s and w is never an emergency |
| Safety.PhraseAbsent | server/app/services/ai_service.py:296 | a phrase with one of those letters cannot occur in a text whose stripped form lacks them |
| Responses.EnhancedResponse | server/app/services/ai_service.py:390-423 | the greeting marker wins over every next step; otherwise the template of the named step, or the line-423 default for an unknown name; no disclaimer is added |
| Responses.EnhancedAgeEmbedsName | server/app/services/ai_service.py:405 | the age template embeds the name extracted this turn, and an empty slot when the name came earlier |
| Responses.EnhancedDurationEmbedsSymptoms | server/app/services/ai_service.py:411 | the duration template names this turn's symptoms, or "these symptoms" |
| Responses.MedicationsTemplate | server/app/services/ai_service.py:413 | the medications question takes nothing from the extraction (a proof aid for Scenarios.DurationWithUnitFallback) |
| Responses.EnhancedForStep | server/app/services/ai_service.py:402-423 | looked up by a step's own name, the table gives that step's template |
| Responses.GreetingOverridesSummary | server/app/services/ai_service.py:394-399 | even with `summary` next, a greeting gets the welcome, and no marker gets the summary template |
| Responses.Clarify | server/app/services/ai_service.py:672-686 | a clarifying question exists exactly for the seven field steps |
| Responses.ContextualResponse | server/app/services/ai_service.py:519-562 | a thank-you first, whatever was extracted; then the greeting; then the acknowledgement of the extracted field; with nothing extracted, the re-ask keyed by the next step |
| Responses.AcknowledgementIgnoresNextStep | server/app/services/ai_service.py:526-547 | once something is extracted the reply does not depend on the next step |
| Responses.DefaultFriendlyResponse | server/app/services/ai_service.py:728-741 | the template of the named next step, or the default for an unknown name |
| Responses.FriendlyAgeGreetsByName | server/app/services/ai_service.py:732 | the age question names the stored patient, or says "there" |
| Responses.GenerateResponse | server/app/services/ai_service.py:650-699 | a greeting at `name` always gets the welcome; otherwise a parsed next step other than `name` and the current step gets its question; otherwise a field step gets its clarifying question; only past the field steps does the service's stripped reply, or the fixed request on failure, answer |
| Responses.GenerateResponseServiceOnlyAtEnd | server/app/services/ai_service.py:672-699 | at a field step the service's outcome plays no part |
| Responses.GenerateResponseReachesService | server/app/services/ai_service.py:689-699 | at `summary` with `summary` next, the reply is the service's stripped text or the fixed request |
| IntakeTurn.Merge | server/app/services/ai_service.py:274 | the extracted field replaces the caller's value for that key; every other key and the current step are unchanged |
| IntakeTurn.Clean | server/app/services/ai_service.py:325 | the returned extraction never holds the greeting marker and keeps every field key |
| IntakeTurn.IntakeReply | server/app/services/ai_service.py:333-388 | a service reply goes through the intake disclaimer rule; a failure gives the enhanced template of the next step |
| IntakeTurn.ProcessIntakeMessage | server/app/services/ai_service.py:264-331 | extraction and next step come from the merged record; an emergency phrase gives the alert with the flag, the extraction unfiltered and no service use; otherwise exactly the cleaned extraction and the service or fallback reply |
| IntakeTurn.GreetingsLackLetters | server/app/services/ai_service.py:439 | no greeting holds b, c, s or w |
| IntakeTurn.GreetingNotEmergency | server/app/services/ai_service.py:289-296 | a bare greeting is never an emergency |
| IntakeTurn.EmergencyIgnoresService | server/app/services/ai_service.py:296-312 | with an emergency phrase the service's outcome plays no part in the turn |
| IntakeTurn.ExtractedValueTruthy | server/app/services/ai_service.py:433-494 | every stored value is truthy, except a name that strips to "" |
| IntakeTurn.NothingExtractedReasks | server/app/services/ai_service.py:270-277 | a turn that extracts nothing leaves the next step at the record's own |
| IntakeTurn.MergeAnswerAdvances | server/app/services/ai_service.py:274-277 | storing a truthy value for the step the resolver chose moves the resolver strictly forward |
| IntakeTurn.AnsweredStepAdvances | server/app/services/ai_service.py:264-331 | in a well-ordered dialogue, a turn that stores a non-empty answer moves strictly forward |
| IntakeTurn.EmptyNameStaysAtName | server/app/services/ai_service.py:443 | a blank answer at `name` is stored as "" and, being falsy, keeps the dialogue at `name` |
| IntakeTurn.FallbackTurnReply | server/app/services/ai_service.py:314-322 | without the service, a non-emergency, non-greeting turn is answered with the template of the step it moves to |
| IntakeTurn.GreetingTurn | server/app/services/ai_service.py:437-441 | a bare greeting at `name`: next step `name`, no emergency, an empty returned extraction, and the welcome when the service fails |
| Scenarios.NameAndAgeLeadToGender | server/app/services/ai_service.py:496-517 | with name "Sam" and age 30 the next step is `gender`, whatever the current step |
| Scenarios.DurationStoredAsksMedications | server/app/services/ai_service.py:510-513 | after the first four fields, a stored duration makes `medications` next |
| Scenarios.DurationWithUnitExtracted | server/app/services/ai_service.py:469-474 | a duration answer naming a unit is stored stripped and non-empty |
| Scenarios.DurationWithUnitTurn | server/app/services/ai_service.py:264-331 | that answer at the duration step: stored as is, `medications` next, no emergency |
| Scenarios.DurationWithUnitFallback | server/app/services/ai_service.py:413 | without the service, that turn is answered with the medications question |
| Chat.Window | server/app/services/ai_service.py:104 | `[-5:]`: the last five entries, or all when fewer |
| Chat.HistoryLine | server/app/services/ai_service.py:105-106 | an entry gives a line exactly when it has both role and content |
| Chat.HistoryLines | server/app/services/ai_service.py:104-106 | the lines succeed exactly when every entry is complete |
| Chat.HistoryContext | server/app/services/ai_service.py:100-106 | empty for no history; otherwise it opens with the header |
| Chat.BuildHistoryContext | server/app/services/ai_service.py:100-106 | the loop's accumulated string is the context block |
| Chat.OnlyLastFiveCount | server/app/services/ai_service.py:104 | entries older than the last five play no part, whatever they hold |
| Chat.IncompleteRecentEntryFails | server/app/services/ai_service.py:104-106 | an incomplete entry among the last five makes the whole context fail |
| Chat.FallbackText | server/app/services/ai_service.py:196-254 | greeting substrings first, then symptom words, then duration words, then the default; the symptom reply embeds the lower-cased message and the duration reply the message as typed, each between its fixed head and tail; always the disclaimer |
| Chat.EchoReply | server/app/services/ai_service.py:213-231 | the echoed text appears in the reply, which opens with its head and carries the disclaimer |
| Chat.FallbackMedicalResponse | server/app/services/ai_service.py:192-262 | the reply is the keyword-selected fallback text; never an emergency, always marked as the fallback, always with the disclaimer |
| Chat.HiAnywhereGreets | server/app/services/ai_service.py:199 | "hi" inside any word ("this", "chills") is read as a greeting |
| Chat.MedicalConversation | server/app/services/ai_service.py:85-190 | always a disclaimer; a failing history gives the fallback; otherwise the flag is exactly the phrase test, the alert goes with it, and a failing service gives the fallback |
| Chat.ErrorKindIrrelevant | server/app/services/ai_service.py:174-190 | the quota branch and the re-raise end in the same fallback |
| Chat.IncompleteHistoryMasksEmergency | server/app/services/ai_service.py:96-106 | as written, an incomplete recent entry hides an emergency: the fallback answers with the flag false |
| Chat.ChestPainWithRolelessEntry | server/app/services/ai_service.py:104-116 | "chest pain" with one entry lacking its role is answered as no emergency |
| Chat.MedicalConversationChecked | server/app/services/ai_service.py:108-133 | with the check first, the flag is exactly the phrase test, whatever the history |
| Chat.CheckedAgreesOnCompleteHistory | server/app/services/ai_service.py:96-190 | with a complete history the corrected order changes nothing |
| Summary.AssessSeverity | server/app/services/ai_service.py:905-921 | moderate without symptoms; severe on a severe word, over mild; mild on a mild word or short-duration phrase; moderate otherwise |
| Summary.SeverityIgnoresCase | server/app/services/ai_service.py:910 | the rating reads the symptoms without regard to case |
| Summary.SevereInAnyContext | server/app/services/ai_service.py:913-915 | severe symptoms stay severe whatever is said around them and whatever the duration |
| Summary.ChestPainRatedSevere | server/app/services/ai_service.py:914 | symptoms mentioning chest pain, in any case, are severe |
| Summary.ChestPainAnswerRatedSevere | server/app/services/ai_service.py:464-466 | a chest-pain answer at the symptoms step is stored, and rated severe |
| Summary.Recommendations | server/app/services/ai_service.py:923-965 | the cold, fever and headache blocks each appear exactly when their words do, in that order and at the positions that order gives (fever after the five cold entries, headache after both), followed by the general entries |
| Summary.BuildRecommendations | server/app/services/ai_service.py:928-965 | the successive `extend` calls build exactly that list |
| Summary.NoSymptomsGeneralOnly | server/app/services/ai_service.py:923-965 | without symptoms only the general entries are given |
| Summary.RedFlags | server/app/services/ai_service.py:1067-1114 | every list, the generic one included, opens with the same heading |
| Summary.CategoryOf | server/app/services/ai_service.py:967-1000 | the one case split the four tables repeat: cold and cough together first, then fever, then headache, then the general case; each category holds exactly when its test is the first to pass |
| Summary.AssessmentsDistinct | server/app/services/ai_service.py:967-1000 | each category's assessment has its own follow-up timeline |
| Summary.MedicationAdvice | server/app/services/ai_service.py:1002-1031 | a bulleted medication list exactly for an adult's cold and cough, a fever or a headache; fever and headache open with the same analgesic lines; the paediatric and general cases are single sentences |
| Summary.MedicationAgeOnlyForColdCough | server/app/services/ai_service.py:1002-1015 | two ages give the same medication advice exactly when the category is not cold and cough or the ages lie on the same side of 18 |
| Summary.HomeRemedies | server/app/services/ai_service.py:1033-1065 | a bulleted list for each named category, and the single sentence otherwise |
| Summary.PatientLinesOf | server/app/services/ai_service.py:867-882 | each patient field of the narrative is the stored value when truthy, or its own default: "Not provided", "Not specified", "patient", "symptoms", "unspecified duration", "None reported"; the age in years is 0 when missing |
| Summary.AgeText | server/app/services/ai_service.py:869 | "Not provided" for a missing or zero age, otherwise the age in decimal |
| Summary.IntelligentFallbackSummary | server/app/services/ai_service.py:851-903 | the assessment, medication, home-care and red-flag entries are the tables' entries for the category of the lower-cased symptoms, the medication entry at the age (0 when missing); the patient part is that of the stored record with its defaults |
| Summary.ColdWithoutCoughSplitsAdvice | server/app/services/ai_service.py:931-969 | "cold" without "cough" gives the cold recommendations, but the tables fall through |
| Summary.FeverBeforeHeadache | server/app/services/ai_service.py:941-985 | with fever and headache the tables give fever, the recommendations both blocks |
| Summary.ReportedList | server/app/services/ai_service.py:801-802 | an answer is listed, alone, exactly when present, non-empty and not "none" in any case |
| Summary.NegativeAnswerListsNothing | server/app/services/ai_service.py:480-482 | a negative answer at medications or allergies ends up as an empty list |
| Summary.NoneNotListed | server/app/services/ai_service.py:801-802 | the stored "none" is never listed |
| Summary.OtherAnswerListed | server/app/services/ai_service.py:801-802 | any other stored answer is listed as stored |
| Summary.StructuredSummary | server/app/services/ai_service.py:790-807 | the complaint is the stored symptoms or "Not specified"; the symptom list holds the stored symptoms alone exactly when they are truthy; the medical history is the fixed sentence; severity, lists and recommendations are those of the rules |
| Summary.GenerateMedicalSummary | server/app/services/ai_service.py:743-807 | the structured record is always the rule-based one; the text is the service's stripped reply or the rule-based narrative |
| Summary.StructuredIgnoresService | server/app/services/ai_service.py:781-807 | the service's outcome does not affect the structured record |
| Summary.EmergencyFallbackSummary | server/app/services/ai_service.py:1116-1135 | the fixed text, moderate severity, one recommendation; empty symptom, associated-symptom, medication and allergy lists; the fixed medical-history line; complaint and duration as in the normal record |

## Findings

| source | as written | input that shows it | evidently intended | confidence | as-written member | corrected member |
|---|---|---|---|---|---|---|
| server/app/services/ai_service.py:96-133 | the history loop runs before the emergency check; a missing "role" or "content" raises, and the outer handler answers with the fallback, which reports no emergency | message "chest pain", history `[{"content": "hello"}]` | the emergency alert whatever the history holds | not executed | Chat.IncompleteHistoryMasksEmergency, Chat.ChestPainWithRolelessEntry | Chat.MedicalConversationChecked |

## Left out

- Text.Lower: only ASCII letters are lower-cased, and only ASCII digits count as digits; Python's Unicode case mapping and `isdigit` are wider.
- The text service (`generate_content`), its configuration and every prompt: modelled as the `AIResult` parameter.
- `analyze_user_input` (its JSON parsing) and `_extract_step_data`: both depend on the service's output.
- `_generate_fallback_summary`: no caller uses it.
- Summary.IntelligentFallbackSummary: the narrative is a record of its sections; the date line (`datetime.now()`), the layout and the final `strip()` are not modelled.
- `id`, `patient_id`, `created_at` and `icd_codes` of the summary response: constants or clock values.
- Debug `print` output and the `async` plumbing.
- Lines 425-431: unreachable after the `return` at 423, so no disclaimer is modelled on the enhanced templates.
- The `except` at 319-322 of `process_intake_message`: in the model, building the reply cannot fail, so `_get_contextual_response` is modelled on its own (Responses.ContextualResponse).
- The outer `except` at 809-811 of `generate_medical_summary`: in the model, assembly cannot fail, so Summary.EmergencyFallbackSummary is modelled on its own.
- The conversation history `process_intake_message` builds (281-286): it is passed on but never used.
- The chat prompt's content (which history lines it shows): the model checks that the context can be built, which is where it can fail.
- `_generate_friendly_response`: only its deterministic fallback `_get_default_friendly_response` is modelled.
