/** `wait_for_automation_execution` and `execute_automation` end to end:
    start an execution, wait for it, read the finished execution and pick the
    requested step's outputs. The SSM service is an `Engine` whose answers are
    given in advance. */
module Automation {
  import opened Wrappers
  import opened Records
  import Waiter
  import Steps

  /** The SSM calls the Lambda makes, as total functions of their arguments:
      `start` answers `start_automation_execution` with an execution id or a
      ClientError message; `poll(id, k)` is the status reported by the waiter's
      (k+1)-th `GetAutomationExecution` call; `fetch` answers the final
      `get_automation_execution` call. */
  datatype Engine = Engine(
    start: (string, Outputs) -> Result<string, string>,
    poll: (string, nat) -> string,
    fetch: string -> Result<ExecutionResult, string>)

  /** The statuses the waiter observes for execution `id`. */
  function Observed(engine: Engine, id: string): nat -> string {
    (k: nat) => engine.poll(id, k)
  }

  /** A final response that has `AutomationExecution` and, inside it,
      `AutomationExecutionStatus`: the keys the log line reads. */
  predicate Complete(result: ExecutionResult) {
    result.automationExecution.Some? && result.automationExecution.value.status.Some?
  }

  /** `wait_for_automation_execution` with its default 30 attempts: wait, then
      read the execution once more; the status is read for the log line, so a
      response without it raises `KeyError`. */
  function AwaitResult(engine: Engine, id: string): (res: Result<ExecutionResult, Error>)
    ensures res.Ok? ==> Waiter.Wait(Observed(engine, id), Waiter.DefaultMaxAttempts).Succeeded?
    ensures res.Ok? ==> engine.fetch(id) == Ok(res.value) && Complete(res.value)
    ensures !Waiter.Wait(Observed(engine, id), Waiter.DefaultMaxAttempts).Succeeded? ==>
              res == Err(WaiterError(Waiter.Wait(Observed(engine, id), Waiter.DefaultMaxAttempts).reason))
    ensures Waiter.Wait(Observed(engine, id), Waiter.DefaultMaxAttempts).Succeeded? ==>
              (engine.fetch(id).Err? ==> res == Err(ClientError(engine.fetch(id).error))) &&
              (engine.fetch(id).Ok? && Complete(engine.fetch(id).value) ==> res == Ok(engine.fetch(id).value)) &&
              (engine.fetch(id).Ok? && !Complete(engine.fetch(id).value) ==> res.Err? && res.error.KeyError?)
  {
    match Waiter.Wait(Observed(engine, id), Waiter.DefaultMaxAttempts)
    case Stopped(reason) => Err(WaiterError(reason))
    case Succeeded(_) =>
      match engine.fetch(id)
      case Err(message) => Err(ClientError(message))
      case Ok(result) =>
        match result.automationExecution
        case None => Err(KeyError("AutomationExecution"))
        case Some(e) =>
          if e.status.None? then Err(KeyError("AutomationExecutionStatus")) else Ok(result)
  }

  /** `execute_automation`: the outputs of step `stepName` of a new execution
      of `documentName`, or the exception that escapes. */
  function ExecuteAutomation(engine: Engine, documentName: string, parameters: Outputs, stepName: string)
    : (res: Result<Outputs, Error>)
    ensures res.Ok? ==>
              engine.start(documentName, parameters).Ok? &&
              Waiter.Wait(Observed(engine, engine.start(documentName, parameters).value),
                          Waiter.DefaultMaxAttempts).Succeeded?
    ensures engine.start(documentName, parameters).Err? ==>
              res == Err(ClientError(engine.start(documentName, parameters).error))
  {
    match engine.start(documentName, parameters)
    case Err(message) => Err(ClientError(message))
    case Ok(id) =>
      match AwaitResult(engine, id)
      case Err(e) => Err(e)
      case Ok(result) => Steps.SelectOutput(result, stepName)
  }

  /** The body of `execute_automation` as the Lambda runs it. */
  method RunAutomation(engine: Engine, documentName: string, parameters: Outputs, stepName: string)
    returns (res: Result<Outputs, Error>)
    ensures res == ExecuteAutomation(engine, documentName, parameters, stepName)
  {
    var started := engine.start(documentName, parameters);
    if started.Err? {
      return Err(ClientError(started.error));
    }
    var id := started.value;
    var outcome, _ := Waiter.WaitForCompletion(Observed(engine, id), Waiter.DefaultMaxAttempts, Waiter.DefaultDelay);
    if outcome.Stopped? {
      return Err(WaiterError(outcome.reason));
    }
    var fetched := engine.fetch(id);
    if fetched.Err? {
      return Err(ClientError(fetched.error));
    }
    var result := fetched.value;
    if result.automationExecution.None? {
      return Err(KeyError("AutomationExecution"));
    }
    if result.automationExecution.value.status.None? {
      return Err(KeyError("AutomationExecutionStatus"));
    }
    res := Steps.ExtractStepOutput(result, stepName);
  }

  /** When the execution starts, reports "Success" within 30 polls before any
      "Failed", and the finished execution carries its status, the result is
      the step selection on that execution. */
  lemma ExecuteAfterSuccess(engine: Engine, documentName: string, parameters: Outputs, stepName: string,
                            id: string, t: nat, result: ExecutionResult)
    requires engine.start(documentName, parameters) == Ok(id)
    requires t < 30 && engine.poll(id, t) == Waiter.SuccessStatus
    requires forall j: nat :: j < t ==> !Waiter.Terminal(engine.poll(id, j))
    requires engine.fetch(id) == Ok(result)
    requires result.automationExecution.Some? && result.automationExecution.value.status.Some?
    ensures ExecuteAutomation(engine, documentName, parameters, stepName) == Steps.SelectOutput(result, stepName)
  {
    Waiter.WaitFromDecidedAt(Observed(engine, id), Waiter.DefaultMaxAttempts, 0, t);
  }

  /** A "Failed" status observed within 30 polls before any "Success" makes the
      call raise a waiter error; the finished execution is never read. */
  lemma ExecuteAfterFailure(engine: Engine, documentName: string, parameters: Outputs, stepName: string,
                            id: string, t: nat)
    requires engine.start(documentName, parameters) == Ok(id)
    requires t < 30 && engine.poll(id, t) == Waiter.FailedStatus
    requires forall j: nat :: j < t ==> !Waiter.Terminal(engine.poll(id, j))
    ensures ExecuteAutomation(engine, documentName, parameters, stepName) == Err(WaiterError(TerminalFailure(t + 1)))
  {
    Waiter.WaitFromDecidedAt(Observed(engine, id), Waiter.DefaultMaxAttempts, 0, t);
  }

  /** Thirty polls without "Success" or "Failed" (Cancelled and TimedOut
      included) make the call raise a waiter error for exceeding the attempts. */
  lemma ExecuteTimesOut(engine: Engine, documentName: string, parameters: Outputs, stepName: string, id: string)
    requires engine.start(documentName, parameters) == Ok(id)
    requires forall j: nat :: j < 30 ==> !Waiter.Terminal(engine.poll(id, j))
    ensures ExecuteAutomation(engine, documentName, parameters, stepName) == Err(WaiterError(MaxAttemptsExceeded(30)))
  {
    Waiter.WaitFromExhausted(Observed(engine, id), Waiter.DefaultMaxAttempts, 0);
  }

  /** After a successful wait, a rejected final `get_automation_execution`
      raises its ClientError, and a final response without
      `AutomationExecutionStatus` raises `KeyError` at the log line, before the
      step list is looked at. */
  lemma ExecuteFinalFetchErrors(engine: Engine, documentName: string, parameters: Outputs,
                                stepName: string, id: string)
    requires engine.start(documentName, parameters) == Ok(id)
    requires Waiter.Wait(Observed(engine, id), Waiter.DefaultMaxAttempts).Succeeded?
    ensures engine.fetch(id).Err? ==>
              ExecuteAutomation(engine, documentName, parameters, stepName) == Err(ClientError(engine.fetch(id).error))
    ensures engine.fetch(id).Ok? && engine.fetch(id).value.automationExecution.None? ==>
              ExecuteAutomation(engine, documentName, parameters, stepName) == Err(KeyError("AutomationExecution"))
    ensures engine.fetch(id).Ok? && engine.fetch(id).value.automationExecution.Some? &&
            engine.fetch(id).value.automationExecution.value.status.None? ==>
              ExecuteAutomation(engine, documentName, parameters, stepName) == Err(KeyError("AutomationExecutionStatus"))
  {
  }

  /** A finished execution without `AutomationExecution` or `StepExecutions`
      raises `KeyError`, whatever step is requested. */
  lemma ExecuteMissingStepsRaisesKeyError(engine: Engine, documentName: string, parameters: Outputs,
                                          stepName: string, id: string, result: ExecutionResult)
    requires engine.start(documentName, parameters) == Ok(id)
    requires Waiter.Wait(Observed(engine, id), Waiter.DefaultMaxAttempts).Succeeded?
    requires engine.fetch(id) == Ok(result)
    requires Steps.StepsOf(result).None?
    ensures var res := ExecuteAutomation(engine, documentName, parameters, stepName);
            res.Err? && res.error.KeyError?
  {
  }
}
