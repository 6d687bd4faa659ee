/** The shapes of the AWS Systems Manager automation records that the
    troubleshooting Lambda reads, and the exceptions it lets escape. */
module Records {
  import opened Wrappers

  /** A step's `Outputs`: each output name maps to a list of strings. The same
      shape is used for the automation parameters a handler passes in. */
  type Outputs = map<string, seq<string>>

  /** One entry of `StepExecutions`; `outputs` is `None` when the step record has
      no `Outputs` key. */
  datatype Step = Step(stepName: string, outputs: Option<Outputs>)

  /** The `AutomationExecution` record; `None` fields are keys that are absent. */
  datatype Execution = Execution(status: Option<string>, stepExecutions: Option<seq<Step>>)

  /** A `get_automation_execution` response; `None` when it has no `AutomationExecution` key. */
  datatype ExecutionResult = ExecutionResult(automationExecution: Option<Execution>)

  /** How the automation waiter ended when it did not succeed. */
  datatype WaiterReason =
    | TerminalFailure(attempts: nat)       // the status "Failed" was observed
    | MaxAttemptsExceeded(attempts: nat)   // no acceptor matched within the attempt budget

  /** The exceptions that escape `execute_automation` (it logs and re-raises them). */
  datatype Error =
    | ClientError(message: string)         // an SSM call was rejected
    | WaiterError(reason: WaiterReason)    // the waiter gave up
    | KeyError(message: string)            // a required key is missing; the exception's argument
    | ValueError(message: string)          // the execution has no steps at all
}
