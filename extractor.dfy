/**
 * The field extractor (`_smart_extract_data`): deterministic pattern rules
 * that turn the patient's free-text answer at the current step into at most
 * one field update.
 */
module Extractor {
  import opened Text
  import opened IntakeModel

  const GREETINGS: seq<string> := ["hi", "hello", "hey", "good morning", "good afternoon", "good evening"]
  const MALE_WORDS: seq<string> := ["male", "man", "boy", "mail", "mal", "m"]
  const FEMALE_WORDS: seq<string> := ["female", "woman", "girl"]
  const OTHER_WORDS: seq<string> := ["other", "non-binary", "prefer not"]
  const SYMPTOM_BLANKS: seq<string> := ["", "none", "nothing"]
  const DURATION_BLANKS: seq<string> := ["", "none"]
  const TIME_UNITS: seq<string> := ["day", "week", "month", "year", "hour"]
  const NEGATIVE_ANSWERS: seq<string> := ["none", "no", "nothing", "n/a"]

  /** `message.lower().strip()`, the form every rule compares against. */
  function Normalize(message: string): string {
    Strip(Lower(message))
  }

  /** The normalised message is the lower-cased stripped message. */
  lemma NormalizeIsLowerStrip(message: string)
    ensures Normalize(message) == Lower(Strip(message))
    ensures Normalize(message) == "" <==> Strip(message) == ""
  {
    StripLower(message);
  }

  /** A lower-case text with no whitespace at either end is its own normal form. */
  lemma NormalizeUnchanged(message: string)
    requires forall i :: 0 <= i < |message| ==> !IsUpper(message[i])
    requires message == [] || (!IsSpace(message[0]) && !IsSpace(message[|message| - 1]))
    ensures Normalize(message) == message
  {
    LowerOfLowercase(message);
    StripUnchanged(message);
  }

  // ----- age: the first run of digits -----

  predicate NoDigits(s: string) {
    forall i :: 0 <= i < |s| ==> !IsDigit(s[i])
  }

  /** Drops everything before the first digit. */
  function DropNonDigits(s: string): (t: string)
    ensures |t| <= |s| && t == s[|s| - |t|..]
    ensures NoDigits(s[..|s| - |t|])
    ensures t == [] || IsDigit(t[0])
  {
    if s == [] || IsDigit(s[0]) then s
    else
      var t := DropNonDigits(s[1..]);
      assert s[..|s| - |t|] == [s[0]] + s[1..][..|s[1..]| - |t|];
      t
  }

  /** The maximal run of digits at the start of `s`. */
  function TakeDigits(s: string): (r: string)
    ensures |r| <= |s| && r == s[..|r|] && AllDigits(r)
    ensures |r| == |s| || !IsDigit(s[|r|])
  {
    if s != [] && IsDigit(s[0]) then
      var r := [s[0]] + TakeDigits(s[1..]);
      assert s == [s[0]] + s[1..];
      r
    else []
  }

  /** `re.findall(r'\d+', message)[0]`, if there is a digit at all. */
  function FirstDigitRun(s: string): (r: Option<string>)
    ensures r.None? <==> !HasDigit(s)
    ensures r.Some? ==> r.value != [] && AllDigits(r.value)
  {
    var t := DropNonDigits(s);
    if t == [] then
      assert s[..|s| - |t|] == s;
      None
    else
      assert s[|s| - |t|] == t[0];
      Some(TakeDigits(t))
  }

  function ExtractAge(message: string): (e: Extraction)
    ensures e.NoData? || (e.AgeValue? && 1 <= e.age <= 150)
  {
    match FirstDigitRun(message)
    case None => NoData
    case Some(run) =>
      var n := DecimalValue(run);
      if 1 <= n <= 150 then AgeValue(n) else NoData
  }

  // ----- gender: three substring word lists, male first -----

  function ExtractGender(message: string): (e: Extraction)
    ensures e.NoData? || e.GenderValue?
  {
    var ml := Normalize(message);
    if AnyIn(MALE_WORDS, ml) then GenderValue(Male)
    else if AnyIn(FEMALE_WORDS, ml) then GenderValue(Female)
    else if AnyIn(OTHER_WORDS, ml) then GenderValue(Other)
    else NoData
  }

  // ----- name and symptoms -----

  function ExtractName(message: string): (e: Extraction)
    ensures e.Greeting? || e.NameValue?
  {
    if Normalize(message) in GREETINGS then Greeting else NameValue(Strip(message))
  }

  function ExtractSymptoms(message: string): (e: Extraction)
    ensures e.NoData? || (e.SymptomsValue? && e.symptoms != "")
  {
    if Normalize(message) !in SYMPTOM_BLANKS then SymptomsValue(Strip(message)) else NoData
  }

  // ----- duration: keep a text with a unit, append " days" to bare numbers -----

  function ExtractDuration(message: string): (e: Extraction)
    ensures e.NoData? || (e.DurationValue? && e.duration != "")
  {
    var ml := Normalize(message);
    if ml in DURATION_BLANKS then NoData
    else
      var duration := Strip(message);
      if AnyIn(TIME_UNITS, ml) then DurationValue(duration)
      else if HasDigit(message) then DurationValue(duration + " days")
      else NoData
  }

  // ----- medications and allergies: negative answers become "none" -----

  /** The shared rule for medications and allergies; `None` is the empty dictionary. */
  function NegatableAnswer(message: string): (r: Option<string>)
    ensures r.Some? ==> r.value != ""
  {
    var ml := Normalize(message);
    if ml in NEGATIVE_ANSWERS then Some("none")
    else if ml != "" then Some(Strip(message))
    else None
  }

  /**
   * `_smart_extract_data(message, current_step)`: a dispatch on the step the
   * caller says it is at.
   */
  function ExtractData(message: string, step: Step): (e: Extraction)
    ensures FitsStep(e, step)
    ensures e.Greeting? ==> Normalize(message) in GREETINGS
    ensures ExtractedKey(e).Some? && !e.NameValue? ==> Truthy(Some(ExtractedValue(e)))
  {
    match step
    case Name => ExtractName(message)
    case Age => ExtractAge(message)
    case Gender => ExtractGender(message)
    case Symptoms => ExtractSymptoms(message)
    case Duration => ExtractDuration(message)
    case Medications =>
      var a := NegatableAnswer(message);
      if a.Some? then MedicationsValue(a.value) else NoData
    case Allergies =>
      var a := NegatableAnswer(message);
      if a.Some? then AllergiesValue(a.value) else NoData
    case Summary => NoData
    case Complete => NoData
  }

  /** At the duration step the dispatch hands the message to the duration rule. */
  lemma DispatchDuration(message: string, step: Step)
    requires step == Duration
    ensures ExtractData(message, step) == ExtractDuration(message)
  {
  }

  // ----- properties -----

  /**
   * At the name step a bare greeting yields only the greeting marker; any
   * other text, the empty string included, becomes the name verbatim after
   * stripping, and a greeting word never becomes a name.
   */
  lemma NameRule(message: string)
    ensures ExtractName(message) == Greeting <==> Normalize(message) in GREETINGS
    ensures Normalize(message) !in GREETINGS ==> ExtractName(message) == NameValue(Strip(message))
    ensures ExtractName(message).NameValue? ==> Lower(ExtractName(message).name) !in GREETINGS
  {
    NormalizeIsLowerStrip(message);
  }

  lemma {:induction false} DropNonDigitsAppend(pre: string, s: string)
    requires NoDigits(pre)
    ensures DropNonDigits(pre + s) == DropNonDigits(s)
    decreases |pre|
  {
    if pre != [] {
      assert (pre + s)[0] == pre[0] && !IsDigit(pre[0]);
      assert (pre + s)[1..] == pre[1..] + s;
      DropNonDigitsAppend(pre[1..], s);
      assert DropNonDigits(pre + s) == DropNonDigits((pre + s)[1..]);
    } else {
      assert pre + s == s;
    }
  }

  lemma {:induction false} TakeDigitsAppend(run: string, post: string)
    requires AllDigits(run)
    requires post == [] || !IsDigit(post[0])
    ensures TakeDigits(run + post) == run
    decreases |run|
  {
    if run != [] {
      assert (run + post)[1..] == run[1..] + post;
      TakeDigitsAppend(run[1..], post);
    }
  }

  /**
   * Only the first run of digits is read: for any message made of a digit-free
   * prefix, a run of digits and a rest that does not continue the run, the age
   * is that run's value when it lies in [1, 150], and nothing otherwise, with
   * no second attempt at later numbers.
   */
  lemma AgeFromFirstRun(pre: string, run: string, post: string)
    requires NoDigits(pre) && run != [] && AllDigits(run)
    requires post == [] || !IsDigit(post[0])
    ensures ExtractAge(pre + run + post)
            == if 1 <= DecimalValue(run) <= 150 then AgeValue(DecimalValue(run)) else NoData
  {
    FirstRunOf(pre, run, post);
  }

  /** The first digit run of a digit-free prefix, a run and a non-continuing rest is that run. */
  lemma FirstRunOf(pre: string, run: string, post: string)
    requires NoDigits(pre) && run != [] && AllDigits(run)
    requires post == [] || !IsDigit(post[0])
    ensures FirstDigitRun(pre + run + post) == Some(run)
  {
    ConcatAssoc(pre, run, post);
    DropNonDigitsAppend(pre, run + post);
    TakeDigitsAppend(run, post);
  }

  /** A message without any digit never yields an age. */
  lemma AgeNeedsDigit(message: string)
    requires !HasDigit(message)
    ensures ExtractAge(message) == NoData
  {
  }

  /** A message that opens with a run of digits: the age is read from that run. */
  lemma AgeFromLeadingRun(run: string, post: string)
    requires run != [] && AllDigits(run)
    requires post == [] || !IsDigit(post[0])
    ensures ExtractAge(run + post)
            == if 1 <= DecimalValue(run) <= 150 then AgeValue(DecimalValue(run)) else NoData
  {
    AgeFromFirstRun([], run, post);
    assert [] + run == run;
  }

  /** "45 years" gives 45. */
  lemma AgeExampleInRange()
    ensures ExtractAge("45" + " years") == AgeValue(45)
  {
    assert "45"[..1] == "4";
    AgeFromLeadingRun("45", " years");
  }

  /** "200" gives nothing. */
  lemma AgeExampleTooOld()
    ensures ExtractAge("200") == NoData
  {
    assert "20"[..1] == "2" && "200"[..2] == "20";
    AgeFromLeadingRun("200", []);
    assert "200" + [] == "200";
  }

  /** "200 or 45" gives nothing too: the later number is never tried. */
  lemma AgeExampleLaterNumberIgnored()
    ensures ExtractAge("200" + " or 45") == NoData
  {
    assert "20"[..1] == "2" && "200"[..2] == "20";
    AgeFromLeadingRun("200", " or 45");
  }

  /** The male word list matches exactly the texts containing "m" or "boy". */
  lemma MaleWordsMeanMOrBoy(ml: string)
    ensures AnyIn(MALE_WORDS, ml) <==> Contains("m", ml) || Contains("boy", ml)
  {
    if AnyIn(MALE_WORDS, ml) {
      var i :| 0 <= i < |MALE_WORDS| && Contains(MALE_WORDS[i], ml);
      if i != 2 {
        ContainsPrefixOf(MALE_WORDS[i], "m", ml);
      }
    }
    if Contains("m", ml) {
      assert Contains(MALE_WORDS[5], ml);
    }
    if Contains("boy", ml) {
      assert Contains(MALE_WORDS[2], ml);
    }
  }

  /** A text holding the character `c` contains the one-character string `[c]`. */
  lemma CharContained(c: char, s: string, k: nat)
    requires k < |s| && s[k] == c
    ensures Contains([c], s)
  {
    assert OccursAt([c], s, k);
    ContainsSlice([c], s, k);
  }

  /** Two of the three female words contain "m"; the third is "girl". */
  lemma FemaleWordsMeaning(ml: string)
    ensures AnyIn(FEMALE_WORDS, ml) ==> Contains("girl", ml) || Contains("m", ml)
    ensures Contains("girl", ml) ==> AnyIn(FEMALE_WORDS, ml)
  {
    if AnyIn(FEMALE_WORDS, ml) {
      var i :| 0 <= i < |FEMALE_WORDS| && Contains(FEMALE_WORDS[i], ml);
      if i < 2 {
        assert FEMALE_WORDS[i][2] == 'm';
        ContainsChar(FEMALE_WORDS[i], ml, 2);
        var k :| 0 <= k < |ml| && ml[k] == 'm';
        CharContained('m', ml, k);
      }
    }
    if Contains("girl", ml) {
      assert Contains(FEMALE_WORDS[2], ml);
    }
  }

  /**
   * The gender rules as the code applies them: any text containing the letter
   * "m" (so "female" and "woman" too) or "boy" is male; female needs "girl"
   * and no male match; other needs an other-word and neither of the two.
   */
  lemma GenderRule(message: string)
    ensures var ml := Normalize(message);
      && (ExtractGender(message) == GenderValue(Male) <==> Contains("m", ml) || Contains("boy", ml))
      && (ExtractGender(message) == GenderValue(Female) <==>
            !Contains("m", ml) && !Contains("boy", ml) && Contains("girl", ml))
      && (ExtractGender(message) == GenderValue(Other) <==>
            !Contains("m", ml) && !Contains("boy", ml) && !Contains("girl", ml) && AnyIn(OTHER_WORDS, ml))
      && (ExtractGender(message) == NoData <==>
            !Contains("m", ml) && !Contains("boy", ml) && !Contains("girl", ml) && !AnyIn(OTHER_WORDS, ml))
  {
    var ml := Normalize(message);
    MaleWordsMeanMOrBoy(ml);
    FemaleWordsMeaning(ml);
  }

  /** Any answer holding an "m" is classified as male. */
  lemma LetterMMeansMale(message: string)
    requires Contains("m", Normalize(message))
    ensures ExtractGender(message) == GenderValue(Male)
  {
    MaleWordsMeanMOrBoy(Normalize(message));
  }

  /** "female" and "woman" are already normalised and hold an "m". */
  lemma FemaleWordsHoldM(w: string)
    requires w == "female" || w == "woman"
    ensures Contains("m", Normalize(w))
  {
    // one word at a time keeps each proof small
    if w == "female" {
      NormalizeUnchanged(w);
      CharContained('m', w, 2);
    } else {
      NormalizeUnchanged(w);
      CharContained('m', w, 2);
    }
  }

  /** "female" and "woman" are both classified as male. */
  lemma FemaleWordsYieldMale(w: string)
    requires w == "female" || w == "woman"
    ensures ExtractGender(w) == GenderValue(Male)
  {
    FemaleWordsHoldM(w);
    LetterMMeansMale(w);
  }

  /** Symptoms are dropped only for the blank answers; otherwise kept stripped and non-empty. */
  lemma SymptomsRule(message: string)
    ensures ExtractSymptoms(message) == NoData <==> Normalize(message) in SYMPTOM_BLANKS
    ensures Normalize(message) !in SYMPTOM_BLANKS ==>
              ExtractSymptoms(message) == SymptomsValue(Strip(message)) && Strip(message) != ""
  {
    NormalizeIsLowerStrip(message);
  }

  /**
   * The duration rule: blank answers give nothing; a text with a time unit is
   * kept; a text with digits but no unit gets " days"; anything else gives
   * nothing.
   */
  lemma DurationRule(message: string)
    ensures var ml := Normalize(message); var e := ExtractDuration(message);
      && (ml in DURATION_BLANKS ==> e == NoData)
      && (ml !in DURATION_BLANKS && AnyIn(TIME_UNITS, ml) ==> e == DurationValue(Strip(message)))
      && (ml !in DURATION_BLANKS && !AnyIn(TIME_UNITS, ml) && HasDigit(message) ==>
            e == DurationValue(Strip(message) + " days"))
      && (ml !in DURATION_BLANKS && !AnyIn(TIME_UNITS, ml) && !HasDigit(message) ==> e == NoData)
  {
  }

  /** Appending " days" always names the unit "day". */
  lemma DaysSuffixNamesUnit(x: string)
    ensures AnyIn(TIME_UNITS, Lower(x + " days"))
  {
    LowerAppend(x, " days");
    LowerOfLowercase(" days");
    ContainsMiddle(Lower(x) + " ", "day", "s");
    assert Lower(x) + " " + "day" + "s" == Lower(x + " days");
    assert Contains(TIME_UNITS[0], Lower(x + " days"));
  }

  /**
   * Every extracted duration is a non-empty text that names a time unit once
   * lower-cased.
   */
  lemma DurationNamesUnit(message: string)
    requires ExtractDuration(message).DurationValue?
    ensures var d := ExtractDuration(message).duration;
      d != "" && AnyIn(TIME_UNITS, Lower(d))
  {
    NormalizeIsLowerStrip(message);
    if !AnyIn(TIME_UNITS, Normalize(message)) {
      DaysSuffixNamesUnit(Strip(message));
    }
  }

  /**
   * Medications and allergies share one rule: the negative answers become the
   * literal "none", any other non-empty text is kept stripped, and only the
   * empty answer gives nothing.
   */
  lemma NegatableRule(message: string)
    ensures var ml := Normalize(message); var a := NegatableAnswer(message);
      && (ml in NEGATIVE_ANSWERS ==> a == Some("none"))
      && (ml !in NEGATIVE_ANSWERS && ml != "" ==> a == Some(Strip(message)))
      && (ml == "" <==> a.None?)
      && (ml == "" <==> Strip(message) == "")
  {
    NormalizeIsLowerStrip(message);
  }
}
