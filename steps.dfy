/** Reading a finished automation execution: the list of its step names, and
    the choice of the step whose `Outputs` `execute_automation` returns. */
module Steps {
  import opened Wrappers
  import opened Records

  /** The steps of a result, or `None` when `AutomationExecution` or
      `StepExecutions` is absent. */
  function StepsOf(r: ExecutionResult): Option<seq<Step>> {
    match r.automationExecution
    case None => None
    case Some(e) => e.stepExecutions
  }

  /** `get_available_steps`: the step names in execution order, or the empty
      list when the result has no step list. */
  function GetAvailableSteps(r: ExecutionResult): (names: seq<string>)
    ensures StepsOf(r).None? ==> names == []
    ensures StepsOf(r).Some? ==>
              |names| == |StepsOf(r).value| &&
              forall i :: 0 <= i < |names| ==> names[i] == StepsOf(r).value[i].stepName
  {
    match StepsOf(r)
    case None => []
    case Some(steps) => seq(|steps|, i requires 0 <= i < |steps| => steps[i].stepName)
  }

  /** The index of the first step called `name`, if any. */
  function FindStep(steps: seq<Step>, name: string): (i: Option<nat>)
    ensures i.Some? ==> i.value < |steps| && steps[i.value].stepName == name &&
                        forall j :: 0 <= j < i.value ==> steps[j].stepName != name
    ensures i.None? <==> forall j :: 0 <= j < |steps| ==> steps[j].stepName != name
  {
    if steps == [] then None
    else if steps[0].stepName == name then Some(0)
    else match FindStep(steps[1..], name)
      case None => None
      case Some(k) => Some(k + 1)
  }

  const MissingStepsText: string := "StepExecutions not found in automation execution result"
  const NoStepsText: string := "No steps found in automation execution result"

  const NoOutputsText: string := "Step executed but no outputs were found"

  /** What is returned when the requested step exists but has no `Outputs`. */
  function NoOutputsMessage(): Outputs {
    map["Message" := [NoOutputsText]]
  }

  /** What is returned when the requested step does not exist and the last step
      has no `Outputs`. */
  function NotFoundText(stepName: string, lastName: string): string {
    "Step '" + stepName + "' not found. Using output from '" + lastName + "' instead."
  }

  function NotFoundMessage(stepName: string, lastName: string): Outputs {
    map["Message" := [NotFoundText(stepName, lastName)]]
  }

  /** The step selection of `execute_automation`: the first step named
      `stepName` supplies the outputs; failing that, the last step does. */
  function SelectOutput(r: ExecutionResult, stepName: string): (res: Result<Outputs, Error>)
    ensures res.Err? <==> StepsOf(r).None? || StepsOf(r).value == []
    ensures res.Err? && StepsOf(r).None? ==> res.error.KeyError?
    ensures res.Err? && StepsOf(r).Some? ==> res.error.ValueError?
    ensures res.Ok? ==>
              res.value == NoOutputsMessage() ||
              (exists i :: 0 <= i < |StepsOf(r).value| && StepsOf(r).value[i].outputs == Some(res.value)) ||
              res.value == NotFoundMessage(stepName, StepsOf(r).value[|StepsOf(r).value| - 1].stepName)
  {
    match StepsOf(r)
    case None => Err(KeyError(MissingStepsText))
    case Some(steps) =>
      match FindStep(steps, stepName)
      case Some(i) => Ok(steps[i].outputs.GetOr(NoOutputsMessage()))
      case None =>
        if steps == [] then Err(ValueError(NoStepsText))
        else
          var last := steps[|steps| - 1];
          Ok(last.outputs.GetOr(NotFoundMessage(stepName, last.stepName)))
  }

  /** The loop of `execute_automation`: scan the steps in order, take the first
      match and stop; otherwise fall back on the last step. */
  method ExtractStepOutput(r: ExecutionResult, stepName: string) returns (res: Result<Outputs, Error>)
    ensures res == SelectOutput(r, stepName)
  {
    if r.automationExecution.None? || r.automationExecution.value.stepExecutions.None? {
      return Err(KeyError(MissingStepsText));
    }
    var steps := r.automationExecution.value.stepExecutions.value;
    var output: Option<Outputs> := None;
    var i := 0;
    while i < |steps|
      invariant 0 <= i <= |steps|
      invariant output.None?
      invariant forall j :: 0 <= j < i ==> steps[j].stepName != stepName
    {
      var step := steps[i];
      if step.stepName == stepName {
        output := Some(step.outputs.GetOr(NoOutputsMessage()));
        break;
      }
      i := i + 1;
    }
    if output.None? {
      if |steps| == 0 {
        return Err(ValueError(NoStepsText));
      }
      var last := steps[|steps| - 1];
      output := Some(last.outputs.GetOr(NotFoundMessage(stepName, last.stepName)));
    }
    res := Ok(output.value);
  }

  /** When some step is named `stepName`, the output comes from the first such
      step: its `Outputs` unchanged, or the fixed no-outputs message. */
  lemma FirstMatchSelected(r: ExecutionResult, stepName: string, i: nat)
    requires StepsOf(r).Some? && i < |StepsOf(r).value|
    requires StepsOf(r).value[i].stepName == stepName
    requires forall j :: 0 <= j < i ==> StepsOf(r).value[j].stepName != stepName
    ensures StepsOf(r).value[i].outputs.Some? ==>
              SelectOutput(r, stepName) == Ok(StepsOf(r).value[i].outputs.value)
    ensures StepsOf(r).value[i].outputs.None? ==>
              SelectOutput(r, stepName) == Ok(map["Message" := ["Step executed but no outputs were found"]])
  {
  }

  /** Steps after the first match are never inspected: two step lists that agree
      up to and including the first step named `stepName` select the same output. */
  lemma LaterStepsNeverInspected(r1: ExecutionResult, r2: ExecutionResult, stepName: string, i: nat)
    requires StepsOf(r1).Some? && StepsOf(r2).Some?
    requires i < |StepsOf(r1).value| && i < |StepsOf(r2).value|
    requires StepsOf(r1).value[..i + 1] == StepsOf(r2).value[..i + 1]
    requires StepsOf(r1).value[i].stepName == stepName
    ensures SelectOutput(r1, stepName) == SelectOutput(r2, stepName)
  {
    var s1, s2 := StepsOf(r1).value, StepsOf(r2).value;
    assert forall j :: 0 <= j <= i ==> s1[j] == s1[..i + 1][j] == s2[..i + 1][j] == s2[j];
    var k1, k2 := FindStep(s1, stepName), FindStep(s2, stepName);
    assert k1.Some? && k1.value <= i;
    assert k2.Some? && k2.value <= i;
  }

  /** The requested step is found exactly when its name is among the available
      steps; otherwise the fallback rules apply. */
  lemma FoundIffAvailable(r: ExecutionResult, stepName: string)
    ensures stepName in GetAvailableSteps(r) <==>
              StepsOf(r).Some? && FindStep(StepsOf(r).value, stepName).Some?
  {
    var names := GetAvailableSteps(r);
    if stepName in names {
      var i :| 0 <= i < |names| && names[i] == stepName;
      assert StepsOf(r).value[i].stepName == stepName;
    }
    if StepsOf(r).Some? && FindStep(StepsOf(r).value, stepName).Some? {
      assert names[FindStep(StepsOf(r).value, stepName).value] == stepName;
    }
  }

  /** A result without `AutomationExecution` or `StepExecutions` raises
      `KeyError`; one with an empty step list raises `ValueError`. */
  lemma SelectErrors(r: ExecutionResult, stepName: string)
    ensures StepsOf(r).None? ==> SelectOutput(r, stepName) == Err(KeyError(MissingStepsText))
    ensures StepsOf(r) == Some([]) ==>
              SelectOutput(r, stepName) == Err(ValueError(NoStepsText))
  {
  }

  /** With no step named `stepName` in a non-empty list, the last step's
      `Outputs` are used, or a one-message map naming both steps. */
  lemma FallbackToLastStep(r: ExecutionResult, stepName: string)
    requires StepsOf(r).Some? && StepsOf(r).value != []
    requires stepName !in GetAvailableSteps(r)
    ensures var last := StepsOf(r).value[|StepsOf(r).value| - 1];
            SelectOutput(r, stepName) ==
              Ok(if last.outputs.Some? then last.outputs.value else NotFoundMessage(stepName, last.stepName))
  {
    FoundIffAvailable(r, stepName);
  }

  /** The fallback message holds one string, which names the requested step and
      the step whose output is used. */
  lemma NotFoundMessageNamesBothSteps(stepName: string, lastName: string)
    ensures NotFoundMessage(stepName, lastName).Keys == {"Message"}
    ensures |NotFoundMessage(stepName, lastName)["Message"]| == 1
    ensures var text := NotFoundMessage(stepName, lastName)["Message"][0];
            var at := |stepName| + 38;
            |text| == at + |lastName| + 10 &&
            text[6..6 + |stepName|] == stepName && text[at..at + |lastName|] == lastName
  {
    var text := NotFoundText(stepName, lastName);
    assert text == ("Step '" + stepName) + ("' not found. Using output from '" + lastName) + "' instead.";
    var at := |stepName| + 38;
    assert text[6..6 + |stepName|] == stepName;
    assert text[at..at + |lastName|] == lastName;
  }

  /** The two fallback messages can never be confused with each other. */
  lemma FallbackMessagesDiffer(stepName: string, lastName: string)
    ensures NoOutputsMessage() != NotFoundMessage(stepName, lastName)
  {
    var text := NotFoundText(stepName, lastName);
    assert text[5] == '\'';
    assert NoOutputsText[5] == 'e';
    assert NoOutputsMessage()["Message"][0] != NotFoundMessage(stepName, lastName)["Message"][0];
  }
}
