/**
 * One scenario of the survey-form runner (`run_test_scenario`): fill the form
 * step by step, stop early on the validation rules, and otherwise submit and
 * apply the verdict table. Each driver interaction is an abstract observation
 * in `Device`; only the runner's decisions are modelled.
 */
module Scenario {
  import opened Wrappers
  import opened Strings
  import opened Screen
  import opened Verdict

  datatype BirthDate = BirthDate(day: string, month: string, year: string)

  /** One AI model to tick, with the defect text to type for it. */
  datatype AiModel = AiModel(model: string, defect: string)

  /** The form inputs of a scenario; `aiModels` is in the dictionary's order. */
  datatype Inputs = Inputs(name: string, birthDate: BirthDate, education: string, city: string,
                           gender: string, aiModels: seq<AiModel>, beneficialUseCase: string)

  /** A scenario descriptor; `expectedError` is the optional `error_message` of the expected result. */
  datatype ScenarioData = ScenarioData(scenarioId: string, description: string, inputs: Inputs,
                               shouldSubmit: bool, expectedError: Option<string>)

  /** Finding a form control and acting on it: done, control not found, or an exception. */
  datatype Control = Done | Missing | Raised(e: string)

  /** The three birth-date fields, looked up in the order day, month, year. */
  datatype DateEntry = DateDone | DayMissing | MonthMissing | YearMissing | DateRaised(e: string)

  /** The education dropdown, then the wanted choice in it. */
  datatype EducationEntry = EducationDone | DropdownMissing | ChoiceMissing | EducationRaised(e: string)

  /** One AI model: its checkbox, then its defect input. */
  datatype ModelEntry = ModelDone | CheckboxMissing | DefectMissing | ModelRaised(e: string)

  /**
   * What the device does at each step of one scenario. `scrollError` and
   * `submitScrollError` are the exceptions of the two swipes (None when they
   * succeed); `nameCheck` is the second TextView listing read for the
   * single-word-name check; `stillOnForm` and `onLoginPage` are the two final
   * element lookups.
   */
  datatype Device = Device(
    nameField: Control, afterName: ScreenState,
    birthDate: DateEntry, afterBirthDate: ScreenState,
    education: EducationEntry,
    cityField: Control, afterCity: ScreenState,
    genderOption: Control,
    scrollError: Option<string>,
    aiModels: seq<ModelEntry>,
    useCaseField: Control,
    submitScrollError: Option<string>,
    afterSubmit: ScreenState, nameCheck: Listing,
    stillOnForm: bool, onLoginPage: bool)

  /** The device holds one observation per AI model of the scenario. */
  predicate Fits(sc: ScenarioData, dev: Device)
  {
    |dev.aiModels| == |sc.inputs.aiModels|
  }

  /** A step either lets the scenario go on or ends it with an outcome. */
  datatype Step = Continue | Stop(outcome: Outcome)

  /** Run `rest` unless the step has already ended the scenario. */
  function Then(s: Step, rest: Outcome): Outcome
  {
    if s.Stop? then s.outcome else rest
  }

  /** The result of an early validation stop: a pass exactly when submission was not expected. */
  function Blocked(sc: ScenarioData, c: ErrorCheck): (r: Outcome)
    ensures r.success <==> !sc.shouldSubmit
  {
    if !sc.shouldSubmit then Outcome(true, "Form was correctly blocked with error: " + Show(c.msg))
    else Outcome(false, "Form validation failed with error: " + Show(c.msg))
  }

  function Fail(message: string): Step
  {
    Stop(Outcome(false, message))
  }

  // ---------------------------------------------------------------------
  // The steps, in the order the runner takes them

  /** Entering the name goes on only when the field was found and filled; otherwise the scenario fails. */
  function EnterName(dev: Device): (r: Step)
    ensures r == Continue <==> dev.nameField == Done
    ensures r.Stop? ==> !r.outcome.success
  {
    match dev.nameField
    case Done => Continue
    case Missing => Fail("Name field not found")
    case Raised(e) => Fail("Failed to enter name: " + e)
  }

  /** An error after the name stops the scenario only when the name is empty. */
  function CheckAfterName(sc: ScenarioData, dev: Device): (r: Step)
    ensures r.Stop? <==> ErrorShown(dev.afterName).found && sc.inputs.name == ""
    ensures r.Stop? ==> (r.outcome.success <==> !sc.shouldSubmit)
  {
    var c := ErrorShown(dev.afterName);
    if c.found && sc.inputs.name == "" then Stop(Blocked(sc, c)) else Continue
  }

  /** The birth date goes on only when all three fields were filled; otherwise the scenario fails. */
  function EnterBirthDate(dev: Device): (r: Step)
    ensures r == Continue <==> dev.birthDate == DateDone
    ensures r.Stop? ==> !r.outcome.success
  {
    match dev.birthDate
    case DateDone => Continue
    case DayMissing => Fail("Day field not found")
    case MonthMissing => Fail("Month field not found")
    case YearMissing => Fail("Year field not found")
    case DateRaised(e) => Fail("Failed to enter birth date: " + e)
  }

  /** Any error after the birth date stops the scenario. */
  function CheckAfterBirthDate(sc: ScenarioData, dev: Device): (r: Step)
    ensures r.Stop? <==> ErrorShown(dev.afterBirthDate).found
    ensures r.Stop? ==> (r.outcome.success <==> !sc.shouldSubmit)
  {
    var c := ErrorShown(dev.afterBirthDate);
    if c.found then Stop(Blocked(sc, c)) else Continue
  }

  /** The education step runs only when an education level is given; a failed selection fails the scenario. */
  function SelectEducation(sc: ScenarioData, dev: Device): (r: Step)
    ensures r == Continue <==> sc.inputs.education == "" || dev.education == EducationDone
    ensures r.Stop? ==> !r.outcome.success
  {
    if sc.inputs.education == "" then Continue
    else
      match dev.education
      case EducationDone => Continue
      case DropdownMissing => Fail("Education dropdown not found")
      case ChoiceMissing => Fail("Education choice " + sc.inputs.education + " not found")
      case EducationRaised(e) => Fail("Failed to select education: " + e)
  }

  /** Without a city field, an empty-name scenario expected to be blocked passes; any other one fails. */
  function EnterCity(sc: ScenarioData, dev: Device): (r: Step)
    ensures r == Continue <==> dev.cityField == Done
    ensures r.Stop? ==> (r.outcome.success <==> sc.inputs.name == "" && !sc.shouldSubmit)
  {
    var blockedByName := sc.inputs.name == "" && !sc.shouldSubmit;
    match dev.cityField
    case Done => Continue
    case Missing =>
      if blockedByName then Stop(Outcome(true, "Form correctly blocked before city field (due to name validation)"))
      else Fail("City field not found")
    case Raised(e) =>
      if blockedByName then Stop(Outcome(true, "Form correctly blocked before city field (due to name validation)"))
      else Fail("Failed to enter city: " + e)
  }

  /** An error after the city stops the scenario only when the city is empty. */
  function CheckAfterCity(sc: ScenarioData, dev: Device): (r: Step)
    ensures r.Stop? <==> ErrorShown(dev.afterCity).found && sc.inputs.city == ""
    ensures r.Stop? ==> (r.outcome.success <==> !sc.shouldSubmit)
  {
    var c := ErrorShown(dev.afterCity);
    if c.found && sc.inputs.city == "" then Stop(Blocked(sc, c)) else Continue
  }

  /** The gender step runs only when a gender is given; a failed selection fails the scenario. */
  function SelectGender(sc: ScenarioData, dev: Device): (r: Step)
    ensures r == Continue <==> sc.inputs.gender == "" || dev.genderOption == Done
    ensures r.Stop? ==> !r.outcome.success
  {
    if sc.inputs.gender == "" then Continue
    else
      match dev.genderOption
      case Done => Continue
      case Missing => Fail("Gender option " + sc.inputs.gender + " not found")
      case Raised(e) => Fail("Failed to select gender: " + e)
  }

  /** A swipe that raises fails the scenario. */
  function ScrollDown(dev: Device): (r: Step)
    ensures r == Continue <==> dev.scrollError == None
    ensures r.Stop? ==> !r.outcome.success
  {
    match dev.scrollError
    case None => Continue
    case Some(e) => Fail("Failed to scroll: " + e)
  }

  /**
   * The AI models from position `i` on: the first one that cannot be entered
   * ends the scenario with a failure, so the step goes on exactly when every
   * remaining model was entered.
   */
  function FillAiModelsFrom(models: seq<AiModel>, entries: seq<ModelEntry>, i: nat): (r: Step)
    requires |entries| == |models|
    ensures r == Continue <==> forall k :: i <= k < |models| ==> entries[k] == ModelDone
    ensures r.Stop? ==> !r.outcome.success
    decreases |models| - i
  {
    if i >= |models| then Continue
    else
      var m := models[i].model;
      match entries[i]
      case ModelDone => FillAiModelsFrom(models, entries, i + 1)
      case CheckboxMissing => Fail("AI model " + m + " checkbox not found")
      case DefectMissing => Fail("Defect input for " + m + " not found")
      case ModelRaised(e) => Fail("Failed with AI models: " + e)
  }

  /** Entering the beneficial use case goes on only when the field was filled; otherwise the scenario fails. */
  function EnterUseCase(dev: Device): (r: Step)
    ensures r == Continue <==> dev.useCaseField == Done
    ensures r.Stop? ==> !r.outcome.success
  {
    match dev.useCaseField
    case Done => Continue
    case Missing => Fail("Beneficial use case field not found")
    case Raised(e) => Fail("Failed to enter beneficial use case: " + e)
  }

  /** The name is non-empty and its whitespace split gives exactly one word. */
  predicate SingleWordName(name: string)
  {
    name != "" && |Words(name)| == 1
  }

  /** The single-word-name probe: the first TextView mentioning "name and surname", if it runs. */
  function NameProbe(sc: ScenarioData, dev: Device): Scan
  {
    if SingleWordName(sc.inputs.name) then
      match dev.nameCheck
      case Listed(items) => ScanTexts(items, NameWords)
      case ListingRaises(_) => Aborted
    else Miss
  }

  /**
   * Submission: the error check, the name probe, then the verdict table. A
   * swipe that raises fails it; otherwise, when submission is expected, it
   * passes exactly when the login page is shown.
   */
  function Submit(sc: ScenarioData, dev: Device): (r: Outcome)
    ensures dev.submitScrollError.Some? ==> !r.success
    ensures dev.submitScrollError == None && sc.shouldSubmit ==> (r.success <==> dev.onLoginPage)
  {
    match dev.submitScrollError
    case Some(e) => Outcome(false, "Test failed during submission verification: " + e)
    case None =>
      var c := ErrorShown(dev.afterSubmit);
      var probe := NameProbe(sc, dev);
      var nameError := probe.Hit?;
      FinalVerdict(sc.shouldSubmit, dev.onLoginPage, c.found || nameError, dev.stillOnForm, nameError,
                   sc.description, sc.expectedError, if nameError then Some(probe.text) else c.msg)
  }

  /**
   * The outcome of a whole scenario: the first step that stops it, else the
   * submission verdict. A scenario expected to submit passes only when every
   * step went through and the login page was reached.
   */
  function ScenarioOutcome(sc: ScenarioData, dev: Device): (r: Outcome)
    requires Fits(sc, dev)
    ensures r.success && sc.shouldSubmit ==>
      ReachesSubmit(sc, dev) && dev.submitScrollError == None && dev.onLoginPage
  {
    Then(EnterName(dev),
    Then(CheckAfterName(sc, dev),
    FromBirthDate(sc, dev)))
  }

  /** The rest of the scenario from the birth-date step on. */
  function FromBirthDate(sc: ScenarioData, dev: Device): Outcome
    requires Fits(sc, dev)
  {
    Then(EnterBirthDate(dev),
    Then(CheckAfterBirthDate(sc, dev),
    Then(SelectEducation(sc, dev),
    FromCity(sc, dev))))
  }

  /** The rest of the scenario from the city step on. */
  function FromCity(sc: ScenarioData, dev: Device): Outcome
    requires Fits(sc, dev)
  {
    Then(EnterCity(sc, dev),
    Then(CheckAfterCity(sc, dev),
    FromGender(sc, dev)))
  }

  /** The rest of the scenario from the gender step on. */
  function FromGender(sc: ScenarioData, dev: Device): Outcome
    requires Fits(sc, dev)
  {
    Then(SelectGender(sc, dev),
    Then(ScrollDown(dev),
    Then(FillAiModelsFrom(sc.inputs.aiModels, dev.aiModels, 0),
    Then(EnterUseCase(dev),
    Submit(sc, dev)))))
  }

  // ---------------------------------------------------------------------
  // The runner's own procedure

  /**
   * `run_test_scenario`: the form is filled step by step with early returns;
   * `errorFound`, `errorMsg` and `nameError` are updated as the source does.
   */
  method RunScenario(sc: ScenarioData, dev: Device) returns (success: bool, message: string)
    requires Fits(sc, dev)
    ensures Outcome(success, message) == ScenarioOutcome(sc, dev)
  {
    var inputs := sc.inputs;

    match dev.nameField {
      case Missing => return false, "Name field not found";
      case Raised(e) => return false, "Failed to enter name: " + e;
      case Done =>
    }

    var errorFound, errorMsg := IsErrorDisplayed(dev.afterName);
    if errorFound && inputs.name == "" {
      if !sc.shouldSubmit {
        return true, "Form was correctly blocked with error: " + Show(errorMsg);
      } else {
        return false, "Form validation failed with error: " + Show(errorMsg);
      }
    }
    assert ScenarioOutcome(sc, dev) == FromBirthDate(sc, dev);

    match dev.birthDate {
      case DayMissing => return false, "Day field not found";
      case MonthMissing => return false, "Month field not found";
      case YearMissing => return false, "Year field not found";
      case DateRaised(e) => return false, "Failed to enter birth date: " + e;
      case DateDone =>
    }

    errorFound, errorMsg := IsErrorDisplayed(dev.afterBirthDate);
    if errorFound {
      if !sc.shouldSubmit {
        return true, "Form was correctly blocked with error: " + Show(errorMsg);
      } else {
        return false, "Form validation failed with error: " + Show(errorMsg);
      }
    }

    if inputs.education != "" {
      match dev.education {
        case DropdownMissing => return false, "Education dropdown not found";
        case ChoiceMissing => return false, "Education choice " + inputs.education + " not found";
        case EducationRaised(e) => return false, "Failed to select education: " + e;
        case EducationDone =>
      }
    }
    assert ScenarioOutcome(sc, dev) == FromCity(sc, dev);
    success, message := RunFromCity(sc, dev);
  }

  /** `run_test_scenario` from the city step to the last field, before submission. */
  method RunFromCity(sc: ScenarioData, dev: Device) returns (success: bool, message: string)
    requires Fits(sc, dev)
    ensures Outcome(success, message) == FromCity(sc, dev)
  {
    var inputs := sc.inputs;

    match dev.cityField {
      case Missing =>
        if inputs.name == "" && !sc.shouldSubmit {
          return true, "Form correctly blocked before city field (due to name validation)";
        }
        return false, "City field not found";
      case Raised(e) =>
        if inputs.name == "" && !sc.shouldSubmit {
          return true, "Form correctly blocked before city field (due to name validation)";
        }
        return false, "Failed to enter city: " + e;
      case Done =>
    }

    var errorFound, errorMsg := IsErrorDisplayed(dev.afterCity);
    if errorFound && inputs.city == "" {
      if !sc.shouldSubmit {
        return true, "Form was correctly blocked with error: " + Show(errorMsg);
      } else {
        return false, "Form validation failed with error: " + Show(errorMsg);
      }
    }
    assert FromCity(sc, dev) == FromGender(sc, dev);

    if inputs.gender != "" {
      match dev.genderOption {
        case Missing => return false, "Gender option " + inputs.gender + " not found";
        case Raised(e) => return false, "Failed to select gender: " + e;
        case Done =>
      }
    }

    if dev.scrollError.Some? {
      return false, "Failed to scroll: " + dev.scrollError.value;
    }

    var i := 0;
    while i < |inputs.aiModels|
      invariant 0 <= i <= |inputs.aiModels|
      invariant FillAiModelsFrom(sc.inputs.aiModels, dev.aiModels, i) == FillAiModelsFrom(sc.inputs.aiModels, dev.aiModels, 0)
    {
      var m := inputs.aiModels[i].model;
      match dev.aiModels[i] {
        case CheckboxMissing => return false, "AI model " + m + " checkbox not found";
        case DefectMissing => return false, "Defect input for " + m + " not found";
        case ModelRaised(e) => return false, "Failed with AI models: " + e;
        case ModelDone =>
      }
      i := i + 1;
    }

    match dev.useCaseField {
      case Missing => return false, "Beneficial use case field not found";
      case Raised(e) => return false, "Failed to enter beneficial use case: " + e;
      case Done =>
    }
    assert FromCity(sc, dev) == Submit(sc, dev);
    success, message := SubmitForm(sc, dev);
  }

  /**
   * The submission step of `run_test_scenario`: the error check, the
   * single-word-name probe that may override its flags, then the verdict table.
   */
  method SubmitForm(sc: ScenarioData, dev: Device) returns (success: bool, message: string)
    ensures Outcome(success, message) == Submit(sc, dev)
  {
    var inputs := sc.inputs;
    if dev.submitScrollError.Some? {
      return false, "Test failed during submission verification: " + dev.submitScrollError.value;
    }

    var errorFound, errorMsg := IsErrorDisplayed(dev.afterSubmit);
    var nameError := false;
    if inputs.name != "" && |Words(inputs.name)| == 1 && dev.nameCheck.Listed? {
      var probe := ScanScreen(dev.nameCheck.items, NameWords);
      if probe.Hit? {
        nameError := true;
        errorFound := true;
        errorMsg := Some(probe.text);
      }
    }

    ghost var c := ErrorShown(dev.afterSubmit);
    ghost var probe := NameProbe(sc, dev);
    assert nameError == probe.Hit?;
    assert errorFound == (c.found || probe.Hit?);
    assert errorMsg == if probe.Hit? then Some(probe.text) else c.msg;
    var verdict := FinalVerdict(sc.shouldSubmit, dev.onLoginPage, errorFound, dev.stillOnForm, nameError,
                                sc.description, sc.expectedError, errorMsg);
    return verdict.success, verdict.message;
  }

  // ---------------------------------------------------------------------
  // The early-exit rules

  /** The scenario gets past the name step and its error check. */
  ghost predicate PastName(sc: ScenarioData, dev: Device)
  {
    EnterName(dev) == Continue && CheckAfterName(sc, dev) == Continue
  }

  /** The scenario gets as far as the city field. */
  ghost predicate ReachesCity(sc: ScenarioData, dev: Device)
  {
    PastName(sc, dev) && EnterBirthDate(dev) == Continue && CheckAfterBirthDate(sc, dev) == Continue
    && SelectEducation(sc, dev) == Continue
  }

  /** The scenario gets as far as the submission. */
  ghost predicate ReachesSubmit(sc: ScenarioData, dev: Device)
    requires Fits(sc, dev)
  {
    ReachesCity(sc, dev) && EnterCity(sc, dev) == Continue && CheckAfterCity(sc, dev) == Continue
    && SelectGender(sc, dev) == Continue && ScrollDown(dev) == Continue
    && FillAiModelsFrom(sc.inputs.aiModels, dev.aiModels, 0) == Continue && EnterUseCase(dev) == Continue
  }

  /**
   * With an empty name, an error after the name step ends the scenario: its
   * result is the blocked verdict, a pass exactly when submission was not
   * expected, whatever happens on the rest of the form.
   */
  lemma ErrorAfterEmptyNameEndsScenario(sc: ScenarioData, dev: Device)
    requires Fits(sc, dev)
    requires dev.nameField == Done && ErrorShown(dev.afterName).found && sc.inputs.name == ""
    ensures ScenarioOutcome(sc, dev) == Blocked(sc, ErrorShown(dev.afterName))
    ensures ScenarioOutcome(sc, dev).success <==> !sc.shouldSubmit
  {
  }

  /** With a non-empty name, the scenario runs as if there were no error check after the name step. */
  lemma ErrorAfterNameIgnoredWhenNamed(sc: ScenarioData, dev: Device)
    requires Fits(sc, dev) && sc.inputs.name != ""
    ensures ScenarioOutcome(sc, dev) == Then(EnterName(dev), FromBirthDate(sc, dev))
  {
  }

  /** Any error after the birth date ends the scenario, whatever the inputs. */
  lemma ErrorAfterBirthDateEndsScenario(sc: ScenarioData, dev: Device)
    requires Fits(sc, dev) && PastName(sc, dev)
    requires dev.birthDate == DateDone && ErrorShown(dev.afterBirthDate).found
    ensures ScenarioOutcome(sc, dev) == Blocked(sc, ErrorShown(dev.afterBirthDate))
    ensures ScenarioOutcome(sc, dev).success <==> !sc.shouldSubmit
  {
  }

  /** With an empty city, an error after the city step ends the scenario. */
  lemma ErrorAfterEmptyCityEndsScenario(sc: ScenarioData, dev: Device)
    requires Fits(sc, dev) && ReachesCity(sc, dev)
    requires dev.cityField == Done && ErrorShown(dev.afterCity).found && sc.inputs.city == ""
    ensures ScenarioOutcome(sc, dev) == Blocked(sc, ErrorShown(dev.afterCity))
    ensures ScenarioOutcome(sc, dev).success <==> !sc.shouldSubmit
  {
  }

  /** With a non-empty city, the scenario runs as if there were no error check after the city step. */
  lemma ErrorAfterCityIgnoredWhenCityGiven(sc: ScenarioData, dev: Device)
    requires Fits(sc, dev) && sc.inputs.city != ""
    ensures FromCity(sc, dev) == Then(EnterCity(sc, dev), FromGender(sc, dev))
  {
  }

  /**
   * When the city field cannot be found or filled, the scenario ends, and it
   * passes exactly when the name is empty and submission was not expected.
   */
  lemma CityFieldUnavailable(sc: ScenarioData, dev: Device)
    requires Fits(sc, dev) && ReachesCity(sc, dev) && dev.cityField != Done
    ensures EnterCity(sc, dev).Stop? && ScenarioOutcome(sc, dev) == EnterCity(sc, dev).outcome
    ensures ScenarioOutcome(sc, dev).success <==> sc.inputs.name == "" && !sc.shouldSubmit
  {
  }

  /** The name probe can only report a name error for a non-empty single-word name. */
  lemma NameErrorNeedsSingleWord(sc: ScenarioData, dev: Device)
    requires NameProbe(sc, dev).Hit?
    ensures sc.inputs.name != [] && |Words(sc.inputs.name)| == 1
    ensures forall c :: c in sc.inputs.name && !IsSpace(c) ==> c in Words(sc.inputs.name)[0]
    ensures exists i, j :: OneRun(sc.inputs.name, i, j)
  {
    OneWordIffOneRun(sc.inputs.name);
    var name := sc.inputs.name;
    WordsPartitionNonSpace(name);
    var w := Words(name)[0];
    assert Concat(Words(name)) == w by {
      assert Words(name)[1..] == [];
    }
    NonSpaceKeeps(name);
  }

  /** Every non-whitespace character of `s` survives in `NonSpace(s)`. */
  lemma {:induction false} NonSpaceKeeps(s: string)
    ensures forall c :: c in s && !IsSpace(c) ==> c in NonSpace(s)
  {
    if s != [] {
      NonSpaceKeeps(s[1..]);
      assert forall c :: c in s ==> c == s[0] || c in s[1..];
    }
  }

  /**
   * A scenario that reaches submission ends with the verdict table, fed with the
   * submission screen's error (overridden by a name error, if the probe finds one).
   */
  lemma SubmissionUsesVerdict(sc: ScenarioData, dev: Device)
    requires Fits(sc, dev) && ReachesSubmit(sc, dev) && dev.submitScrollError == None
    ensures var c := ErrorShown(dev.afterSubmit);
            var probe := NameProbe(sc, dev);
            ScenarioOutcome(sc, dev)
            == FinalVerdict(sc.shouldSubmit, dev.onLoginPage, c.found || probe.Hit?, dev.stillOnForm, probe.Hit?,
                            sc.description, sc.expectedError, if probe.Hit? then Some(probe.text) else c.msg)
  {
  }

  /**
   * When submission was not expected, a name error in the single-word-name
   * scenario passes, whatever the login page, form and error checks show.
   */
  lemma SingleWordNameRuleFirst(sc: ScenarioData, dev: Device)
    requires Fits(sc, dev) && ReachesSubmit(sc, dev) && dev.submitScrollError == None
    requires !sc.shouldSubmit && NameProbe(sc, dev).Hit? && Contains(Lower(sc.description), OneWordMarker)
    ensures ScenarioOutcome(sc, dev).success
  {
  }
}
