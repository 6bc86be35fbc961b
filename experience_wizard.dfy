/**
 * The experience wizard: four steps (type, description, translation, refinement), the
 * guard on its Next button, the mock translation it starts on leaving the description
 * step, and the save that hands the result to the caller.
 */
module ExperienceWizard {
  import opened Wrappers
  import opened Text

  datatype Step = TypeSelection | Description | Translation | Refinement

  /** The `steps` list, in display order. */
  const Steps: seq<Step> := [TypeSelection, Description, Translation, Refinement]

  /** `currentStepIndex`: the position of the step in the list, the first one that
      matches. */
  function StepIndex(s: Step): (i: nat)
    ensures i < |Steps| && Steps[i] == s
    ensures forall j :: 0 <= j < i ==> Steps[j] != s
  {
    match s
    case TypeSelection => 0
    case Description => 1
    case Translation => 2
    case Refinement => 3
  }

  /** The step `handleNext` moves to. */
  function NextStep(s: Step): Step {
    match s
    case TypeSelection => Description
    case Description => Translation
    case Translation => Refinement
    case Refinement => Refinement
  }

  /** The step `handleBack` moves to. */
  function PrevStep(s: Step): Step {
    match s
    case TypeSelection => TypeSelection
    case Description => TypeSelection
    case Translation => Description
    case Refinement => Translation
  }

  /** Next moves exactly one place along the list and stays put at the end; Back moves
      exactly one place back and stays put at the start. */
  lemma StepMoves(s: Step)
    ensures s != Refinement ==> StepIndex(NextStep(s)) == StepIndex(s) + 1
    ensures s == Refinement ==> NextStep(s) == s
    ensures s != TypeSelection ==> StepIndex(PrevStep(s)) + 1 == StepIndex(s)
    ensures s == TypeSelection ==> PrevStep(s) == s
  {
  }

  /** Back undoes Next everywhere but at the last step, and Next undoes Back everywhere
      but at the first. */
  lemma BackAfterNext(s: Step)
    ensures s != Refinement ==> PrevStep(NextStep(s)) == s
    ensures s != TypeSelection ==> NextStep(PrevStep(s)) == s
  {
  }

  datatype TranslationResult = TranslationResult(
    original: string, professional: string, confidence: int,
    improvements: seq<string>, keywords: seq<string>)

  const ProfessionalLead: string := "Led a comprehensive "
  const ProfessionalTail: string :=
    " that resulted in measurable improvements and demonstrated strong leadership capabilities. " +
    "Collaborated with cross-functional stakeholders to deliver high-quality outcomes within established timelines."
  const MockImprovements: seq<string> := [
    "Added action verbs and quantifiable results",
    "Enhanced professional language and industry terminology",
    "Improved clarity and impact of achievements",
    "Optimized for ATS keyword matching"]
  const MockKeywords: seq<string> :=
    ["Leadership", "Collaboration", "Project Management", "Results-Driven", "Cross-functional"]

  /** What the professional text calls the experience. */
  function ProjectKind(selectedType: Option<string>): string {
    if selectedType == Some("class-project") then "academic research project" else "team initiative"
  }

  /** The canned result of `handleTranslation`, built from the description and the type
      selected when the translation started. */
  function MockResult(description: string, selectedType: Option<string>): (r: TranslationResult)
    ensures r.original == description && r.confidence == 87
    ensures |r.improvements| == 4 && |r.keywords| == 5
  {
    TranslationResult(description, ProfessionalLead + ProjectKind(selectedType) + ProfessionalTail, 87,
                      MockImprovements, MockKeywords)
  }

  /** The professional text names a research project for a class project and a team
      initiative for anything else. */
  lemma MockResultKind(description: string, selectedType: Option<string>)
    ensures var p := MockResult(description, selectedType).professional;
      (selectedType == Some("class-project") ==> StartsWith(p, ProfessionalLead + "academic research project")) &&
      (selectedType != Some("class-project") ==> StartsWith(p, ProfessionalLead + "team initiative"))
  {
    var head := ProfessionalLead + ProjectKind(selectedType);
    assert (head + ProfessionalTail)[..|head|] == head;
  }

  /** `canProceed`. */
  predicate CanProceed(step: Step, selectedType: Option<string>, description: string,
                       result: Option<TranslationResult>)
  {
    match step
    case TypeSelection => selectedType.Some?
    case Description => |JsTrim(description)| > 10
    case Translation => result.Some?
    case Refinement => true
  }

  /** The guard, rule by rule: a type must be chosen, the trimmed description must be
      longer than ten characters, a result must exist, and the last step always passes. */
  lemma CanProceedRules(t: Option<string>, d: string, r: Option<TranslationResult>)
    ensures CanProceed(TypeSelection, t, d, r) <==> t.Some?
    ensures CanProceed(Description, t, d, r) <==> |JsTrim(d)| > 10
    ensures CanProceed(Translation, t, d, r) <==> r.Some?
    ensures CanProceed(Refinement, t, d, r)
    ensures !CanProceed(Description, t, "           ", r)
  {
    var blank := "           ";
    assert forall i :: 0 <= i < |blank| ==> IsJsSpace(blank[i]);
    TrimBlank(blank, IsJsSpace);
  }

  /** The wizard's state. `pending` holds what the running translation captured (the
      description and the selected type), until its timer fires. */
  class Wizard {
    var step: Step
    var selectedType: Option<string>
    var description: string
    var translationResult: Option<TranslationResult>
    var isTranslating: bool
    var pending: Option<(string, Option<string>)>

    /** A translation is running exactly while one is pending; the refinement step has a
        result; the translation step has a result or is computing one. */
    predicate Valid()
      reads this
    {
      (isTranslating <==> pending.Some?) &&
      (step == Refinement ==> translationResult.Some?) &&
      (step == Translation ==> translationResult.Some? || pending.Some?)
    }

    constructor ()
      ensures step == TypeSelection && selectedType.None? && description == ""
      ensures translationResult.None? && !isTranslating && pending.None?
      ensures Valid()
    {
      step := TypeSelection;
      selectedType := None;
      description := "";
      translationResult := None;
      isTranslating := false;
      pending := None;
    }

    /** `handleTypeSelection`. */
    method SelectType(t: string)
      requires Valid()
      modifies this
      ensures selectedType == Some(t) && Valid()
      ensures step == old(step) && description == old(description)
      ensures translationResult == old(translationResult) && pending == old(pending) && isTranslating == old(isTranslating)
    {
      selectedType := Some(t);
    }

    /** The description text area. */
    method SetDescription(d: string)
      requires Valid()
      modifies this
      ensures description == d && Valid()
      ensures step == old(step) && selectedType == old(selectedType)
      ensures translationResult == old(translationResult) && pending == old(pending) && isTranslating == old(isTranslating)
    {
      description := d;
    }

    /** The start of `handleTranslation`: the flag is raised and the inputs captured. */
    method StartTranslation()
      modifies this
      ensures isTranslating && pending == Some((old(description), old(selectedType)))
      ensures step == old(step) && selectedType == old(selectedType) && description == old(description)
      ensures translationResult == old(translationResult)
    {
      isTranslating := true;
      pending := Some((description, selectedType));
    }

    /** The end of `handleTranslation`, when its timer fires: the mock result is stored and
        the flag lowered. */
    method FinishTranslation()
      requires Valid()
      modifies this
      ensures old(pending).Some? ==>
        translationResult == Some(MockResult(old(pending).value.0, old(pending).value.1)) &&
        !isTranslating && pending.None?
      ensures old(pending).None? ==> translationResult == old(translationResult) && pending.None? && !isTranslating
      ensures step == old(step) && selectedType == old(selectedType) && description == old(description)
      ensures Valid()
    {
      if pending.Some? {
        translationResult := Some(MockResult(pending.value.0, pending.value.1));
        isTranslating := false;
        pending := None;
      }
    }

    /** `handleNext`: one step forward; leaving the description starts a translation. */
    method HandleNext()
      modifies this
      ensures step == NextStep(old(step))
      ensures old(step) == Description ==> isTranslating && pending == Some((old(description), old(selectedType)))
      ensures old(step) != Description ==> isTranslating == old(isTranslating) && pending == old(pending)
      ensures selectedType == old(selectedType) && description == old(description)
      ensures translationResult == old(translationResult)
    {
      if step == TypeSelection {
        step := Description;
      } else if step == Description {
        step := Translation;
        StartTranslation();
      } else if step == Translation {
        step := Refinement;
      }
    }

    /** `handleBack`: one step back. */
    method HandleBack()
      requires Valid()
      modifies this
      ensures step == PrevStep(old(step)) && Valid()
      ensures selectedType == old(selectedType) && description == old(description)
      ensures translationResult == old(translationResult) && pending == old(pending) && isTranslating == old(isTranslating)
    {
      if step == Description {
        step := TypeSelection;
      } else if step == Translation {
        step := Description;
      } else if step == Refinement {
        step := Translation;
      }
    }

    /** The Next button: not shown at the first step (the type selector advances there),
        disabled unless `canProceed`; at the last step it reads "Complete" and changes
        nothing. Pressing it keeps the wizard valid. */
    method ClickNext()
      requires Valid()
      modifies this
      ensures old(step) != TypeSelection && CanProceed(old(step), old(selectedType), old(description), old(translationResult)) ==>
        step == NextStep(old(step))
      ensures !(old(step) != TypeSelection && CanProceed(old(step), old(selectedType), old(description), old(translationResult))) ==>
        step == old(step) && pending == old(pending) && isTranslating == old(isTranslating)
      ensures old(step) == Refinement ==>
        step == Refinement && pending == old(pending) && isTranslating == old(isTranslating)
      ensures selectedType == old(selectedType) && description == old(description)
      ensures translationResult == old(translationResult)
      ensures Valid()
    {
      if step != TypeSelection && CanProceed(step, selectedType, description, translationResult) {
        HandleNext();
      }
    }

    /** The Next button as evidently intended: at the last step "Complete" saves, handing
        the result to `onComplete`; elsewhere it is the Next button above. */
    method ClickComplete() returns (completed: Option<TranslationResult>)
      requires Valid()
      modifies this
      ensures old(step) == Refinement ==>
        completed == old(translationResult) && completed.Some? && step == Refinement
      ensures old(step) != Refinement ==> completed.None?
      ensures old(step) != Refinement && old(step) != TypeSelection &&
              CanProceed(old(step), old(selectedType), old(description), old(translationResult)) ==>
        step == NextStep(old(step))
      ensures selectedType == old(selectedType) && description == old(description)
      ensures translationResult == old(translationResult)
      ensures Valid()
    {
      if step == Refinement {
        completed := HandleSave();
      } else {
        ClickNext();
        completed := None;
      }
    }

    /** The type selector's own Next, at the first step. */
    method SelectorNext()
      requires Valid() && step == TypeSelection
      modifies this
      ensures step == Description && Valid()
      ensures selectedType == old(selectedType) && description == old(description)
      ensures translationResult == old(translationResult) && pending == old(pending)
    {
      HandleNext();
    }

    /** `handleRegenerate`: a new translation with the current inputs. */
    method Regenerate()
      requires Valid()
      modifies this
      ensures isTranslating && pending == Some((old(description), old(selectedType))) && Valid()
      ensures step == old(step) && translationResult == old(translationResult)
    {
      StartTranslation();
    }

    /** `handleSave`: the result handed to `onComplete`, if there is one. */
    method HandleSave() returns (completed: Option<TranslationResult>)
      ensures completed.Some? <==> translationResult.Some?
      ensures completed.Some? ==> completed.value == translationResult.value
    {
      if translationResult.Some? {
        completed := Some(translationResult.value);
      } else {
        completed := None;
      }
    }
  }
}
