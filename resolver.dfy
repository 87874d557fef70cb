/**
 * The step resolvers: `_determine_next_step_from_data`, which picks the next
 * question from the merged field values of a turn, its twin
 * `_determine_next_step` over the caller's record, and the successor
 * function `_determine_next_step_name` over the fixed step order.
 */
module Resolver {
  import opened IntakeModel

  /**
   * Reference reading of "the first unanswered field": the index of the
   * first key of `keys` that is not set, or `|keys|` when all are set.
   */
  function FirstUnsetIndex(d: IntakeData, keys: seq<Key>): (i: nat)
    ensures i <= |keys|
    ensures forall j :: 0 <= j < i ==> IsSet(d, keys[j])
    ensures i < |keys| ==> !IsSet(d, keys[i])
  {
    if keys == [] then 0
    else if !IsSet(d, keys[0]) then 0
    else 1 + FirstUnsetIndex(d, keys[1..])
  }

  /**
   * `_determine_next_step_from_data`: the greeting marker forces `name`;
   * otherwise the first falsy field in the fixed order, and `summary` once
   * every field is answered.
   */
  function NextStepFromData(m: MergedData): (s: Step)
    ensures s != Complete
    ensures m.isGreeting ==> s == Name
    ensures !m.isGreeting ==> (s == Summary <==> forall k :: IsSet(m.data, k))
    ensures !m.isGreeting && s != Summary ==>
              KeyOfStep(s).Some? && !IsSet(m.data, KeyOfStep(s).value) &&
              forall j :: 0 <= j < StepRank(s) ==> IsSet(m.data, FIELD_ORDER[j])
  {
    var d := m.data;
    if m.isGreeting then Name
    else if !IsSet(d, NameKey) then Name
    else if !IsSet(d, AgeKey) then Age
    else if !IsSet(d, GenderKey) then Gender
    else if !IsSet(d, SymptomsKey) then Symptoms
    else if !IsSet(d, DurationKey) then Duration
    else if !IsSet(d, MedicationsKey) then Medications
    else if !IsSet(d, AllergiesKey) then Allergies
    else
      AllSevenSet(d);
      Summary
  }

  /** The seven checks of the resolver cover every key. */
  lemma AllSevenSet(d: IntakeData)
    requires IsSet(d, NameKey) && IsSet(d, AgeKey) && IsSet(d, GenderKey) && IsSet(d, SymptomsKey)
    requires IsSet(d, DurationKey) && IsSet(d, MedicationsKey) && IsSet(d, AllergiesKey)
    ensures forall k :: IsSet(d, k)
  {
    forall k: Key ensures IsSet(d, k) {
      match k
      case NameKey =>
      case AgeKey =>
      case GenderKey =>
      case SymptomsKey =>
      case DurationKey =>
      case MedicationsKey =>
      case AllergiesKey =>
    }
  }

  /**
   * Without the greeting marker the resolver's answer is exactly the first
   * unanswered position of the field order, `summary` standing for "past
   * the end".
   */
  lemma NextStepIsFirstUnset(m: MergedData)
    requires !m.isGreeting
    ensures StepRank(NextStepFromData(m)) == FirstUnsetIndex(m.data, FIELD_ORDER)
  {
    var s := NextStepFromData(m);
    var i := FirstUnsetIndex(m.data, FIELD_ORDER);
    if s != Summary {
      var r := StepRank(s);
      assert !IsSet(m.data, FIELD_ORDER[r]);
    }
  }

  /** The caller's `current_step` plays no part in the resolver's answer. */
  lemma ResolverIgnoresCurrentStep(m: MergedData, step: Step)
    ensures NextStepFromData(MergedData(m.data.(currentStep := step), m.isGreeting)) == NextStepFromData(m)
  {
    var m' := MergedData(m.data.(currentStep := step), m.isGreeting);
    forall k: Key ensures Get(m'.data, k) == Get(m.data, k) {
    }
  }

  /**
   * `_determine_next_step`: the same question order, read from the caller's
   * record alone (there is no greeting marker there).
   */
  function NextStep(d: IntakeData): (s: Step)
    ensures s == NextStepFromData(MergedData(d, false))
  {
    if d.name.None? || d.name.value == "" then Name
    else if d.age.None? || d.age.value == 0 then Age
    else if d.gender.None? || d.gender.value == "" then Gender
    else if d.symptoms.None? || d.symptoms.value == "" then Symptoms
    else if d.duration.None? || d.duration.value == "" then Duration
    else if d.medications.None? || d.medications.value == "" then Medications
    else if d.allergies.None? || d.allergies.value == "" then Allergies
    else Summary
  }

  /** The step list `_determine_next_step_name` walks: every step but `complete`. */
  const STEP_ORDER: seq<Step> := [Name, Age, Gender, Symptoms, Duration, Medications, Allergies, Summary]

  /**
   * `_determine_next_step_name`: the step after `current` in the step list,
   * `complete` after `summary`, and `name` for a string the list does not
   * hold (`complete` included).
   */
  function NextStepName(current: string): (r: Step)
    ensures var p := ParseStep(current);
      && (p.Some? && p.value != Complete ==> StepRank(r) == StepRank(p.value) + 1)
      && (p.None? || p.value == Complete ==> r == Name)
  {
    match ParseStep(current)
    case None => Name
    case Some(s) =>
      var i := StepRank(s);
      if i < |STEP_ORDER| - 1 then STEP_ORDER[i + 1]
      else if i == |STEP_ORDER| - 1 then Complete
      else Name
  }

  /**
   * On step names the successor is one step further along, so `summary`
   * leads to `complete` and nothing leads back to `name`.
   */
  lemma NextStepNameOfStep(s: Step)
    requires s != Complete
    ensures StepRank(NextStepName(StepName(s))) == StepRank(s) + 1
    ensures NextStepName(StepName(s)) != Name
    ensures s == Summary <==> NextStepName(StepName(s)) == Complete
  {
    StepNameRoundTrip(s, StepName(s));
  }
}
