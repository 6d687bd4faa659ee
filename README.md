# Troubleshooting agent action group: automation orchestration model

This project models the Lambda behind the action group of an Amazon Bedrock agent that troubleshoots AWS resources. The agent uses AWS Support Automation Workflow (SAW) documents: curated Systems Manager automation runbooks. Each of the Lambda's three endpoints does four things:

- binds its two caller strings to a fixed SAW document, a parameter map and a step name;
- starts the automation;
- waits for it with a waiter that polls the execution status;
- returns the `Outputs` of the chosen step of the finished execution, with fixed fallbacks when that step is missing or has no outputs.

Modules:

- `Wrappers` (`wrappers.dfy`): `Option` and `Result`.
- `Records` (`records.dfy`): step records, the automation execution and the result, and the exceptions that escape (`ClientError`, `WaiterError`, `KeyError`, `ValueError`). A JSON key that may be absent is an `Option`.
- `Waiter` (`waiter.dfy`): the waiter of `wait_for_automation_execution`. The remote engine is a function `poll: nat -> string`, the status seen at each poll. `Wait` is the specification. `WaitForCompletion` is the polling loop, proved equal to it.
- `Steps` (`steps.dfy`): `get_available_steps` and the step selection of `execute_automation`. `SelectOutput` is the specification. `ExtractStepOutput` is the `for`/`break` loop, proved equal to it.
- `Automation` (`automation.dfy`): `execute_automation` end to end, over an `Engine`. An `Engine` holds the answers of the three SSM calls as total functions.
- `Handlers` (`handlers.dfy`): the three endpoints as a `Scenario` datatype with the binding table `Bind` and its inverse `Unbind`.

The model keeps to what the code does, which is narrower than a general orchestration layer:

- The waiter has no backoff. It has a fixed delay of 10 seconds and at most 30 polls. The code adds no retry of its own.
- Only `Success` and `Failed` end the wait. `Cancelled` and `TimedOut` keep it polling.
- The result is the raw `Outputs` map of one step, not a report with findings.
- There is no `MissingParameter` or `UnknownScenario` error. Each endpoint has a fixed binding, and request validation belongs to the web framework.

A detail of the code that the model keeps: `wait_for_automation_execution` reads `AutomationExecution.AutomationExecutionStatus` of the final response for a log line. So a response without those keys raises `KeyError` there, before the check in `execute_automation` is reached.

## Model

| member | source | states |
|---|---|---|
| Waiter.Bound | lambda/saw_troubleshooting/utils.py:22-43 | the poll bound is `max_attempts` when that is at least 1, and exactly 1 otherwise: a `max_attempts` below 1 still allows one poll |
| Waiter.WaitFrom | lambda/saw_troubleshooting/utils.py:44-57 | after `k` unmatched polls: the outcome's poll count is within the bound; every poll before the last was neither Success nor Failed; Succeeded exactly when the last status is Success; a terminal failure exactly when it is Failed; an exceeded budget ends exactly at the bound |
| Waiter.Wait | lambda/saw_troubleshooting/utils.py:22-66 | a whole wait makes between 1 and `Bound(max_attempts)` polls |
| Waiter.WaitFromDecidedAt | lambda/saw_troubleshooting/utils.py:44-57 | the first Success or Failed status within the bound decides the outcome and the number of polls |
| Waiter.WaitFromExhausted | lambda/saw_troubleshooting/utils.py:22-43 | with no terminal status within the bound, the wait fails with max attempts exceeded after exactly `Bound(max_attempts)` polls |
| Waiter.WaitSucceedsIff | lambda/saw_troubleshooting/utils.py:44-50 | the wait succeeds if and only if Success is observed within the bound with no earlier Success or Failed |
| Waiter.WaitFailsIff | lambda/saw_troubleshooting/utils.py:51-56 | the wait ends in a terminal failure if and only if Failed is observed within the bound with no earlier Success or Failed |
| Waiter.WaitTimesOutIff | lambda/saw_troubleshooting/utils.py:34-43 | the wait exceeds its attempts if and only if no status within the bound is Success or Failed (Cancelled and TimedOut included) |
| Waiter.WaitForCompletion | lambda/saw_troubleshooting/utils.py:62-66 | the polling loop returns the outcome `Wait` specifies; it sleeps the fixed delay once between consecutive polls, never after the last |
| Waiter.DefaultWaitBounded | lambda/saw_troubleshooting/utils.py:22 | with the defaults (30 attempts, 10 s delay) at most 30 polls and 290 s of sleep |
| Steps.GetAvailableSteps | lambda/saw_troubleshooting/utils.py:74-87 | the empty list when `AutomationExecution` or `StepExecutions` is absent; otherwise one name per step, in execution order |
| Steps.FindStep | lambda/saw_troubleshooting/utils.py:125-126 | the index of the first step with the requested name, or none exactly when no step has it |
| Steps.SelectOutput | lambda/saw_troubleshooting/utils.py:117-143 | an error exactly when the step list is absent (KeyError) or empty (ValueError); otherwise some step's `Outputs`, the no-outputs message or the not-found message naming the last step |
| Steps.ExtractStepOutput | lambda/saw_troubleshooting/utils.py:117-143 | the scan with `break` and the fallback after it compute exactly `SelectOutput` |
| Steps.FirstMatchSelected | lambda/saw_troubleshooting/utils.py:125-132 | the first step named `step_name` supplies the output: its `Outputs` unchanged, or exactly `{"Message": ["Step executed but no outputs were found"]}` |
| Steps.LaterStepsNeverInspected | lambda/saw_troubleshooting/utils.py:125-132 | step lists that agree up to the first match select the same output |
| Steps.FoundIffAvailable | lambda/saw_troubleshooting/utils.py:84-87 | the requested step is matched if and only if its name is among `get_available_steps` |
| Steps.SelectErrors | lambda/saw_troubleshooting/utils.py:117-136 | a missing step list raises KeyError; an empty one raises ValueError |
| Steps.FallbackToLastStep | lambda/saw_troubleshooting/utils.py:138-140 | with no match in a non-empty list: the last step's `Outputs`, or the message naming both steps |
| Steps.NotFoundMessageNamesBothSteps | lambda/saw_troubleshooting/utils.py:140 | the fallback message is a one-key map with one string that holds the requested step name and the last step's name at fixed positions |
| Steps.FallbackMessagesDiffer | lambda/saw_troubleshooting/utils.py:131-140 | the no-outputs message and the not-found message are never equal |
| Automation.AwaitResult | lambda/saw_troubleshooting/utils.py:22-71 | a failed or exhausted wait raises the waiter error; after a successful wait, the final response is returned exactly when it has `AutomationExecution` and its status, a rejected final call raises its ClientError, and a response missing either key raises KeyError |
| Automation.ExecuteAutomation | lambda/saw_troubleshooting/utils.py:108-153 | outputs only if the start succeeded and the wait succeeded; a rejected start raises its ClientError |
| Automation.RunAutomation | lambda/saw_troubleshooting/utils.py:108-143 | the sequence of SSM calls, the waiter loop and the step scan compute exactly `ExecuteAutomation` |
| Automation.ExecuteAfterSuccess | lambda/saw_troubleshooting/utils.py:113-143 | when Success comes within 30 polls, the result is the step selection on the finished execution |
| Automation.ExecuteAfterFailure | lambda/saw_troubleshooting/utils.py:51-57 | when Failed comes first within 30 polls, a terminal-failure waiter error after exactly that many polls |
| Automation.ExecuteTimesOut | lambda/saw_troubleshooting/utils.py:22-43 | 30 non-terminal statuses give a waiter error for exceeding 30 attempts |
| Automation.ExecuteFinalFetchErrors | lambda/saw_troubleshooting/utils.py:68-69 | after a successful wait, a rejected final `get_automation_execution` raises its ClientError; a response without `AutomationExecution` or `AutomationExecutionStatus` raises KeyError for that key |
| Automation.ExecuteMissingStepsRaisesKeyError | lambda/saw_troubleshooting/utils.py:117-118 | a finished execution without `AutomationExecution` or `StepExecutions` raises KeyError before any step is selected |
| Handlers.Bind | lambda/saw_troubleshooting/app.py:47-103 | every binding has exactly two parameters, each a one-element list holding one of the caller's strings |
| Handlers.UnbindBind | lambda/saw_troubleshooting/app.py:47-103 | the request can be read back from its binding, so the caller's strings are passed unmodified and no two requests share a binding |
| Handlers.BindUnbind | lambda/saw_troubleshooting/app.py:47-103 | every binding that reads back as a request is that request's binding (document, exact keys, step name) |
| Handlers.DocumentsDistinct | lambda/saw_troubleshooting/app.py:48-100 | the three endpoints use pairwise distinct documents |
| Handlers.Troubleshoot | lambda/saw_troubleshooting/app.py:47-103 | an endpoint whose document and parameters the engine rejects raises ClientError |
| Handlers.TroubleshootReturnsStepOutputs | lambda/saw_troubleshooting/app.py:47-103 | after a successful wait, an endpoint returns the `Outputs` of its step of the finished execution, unchanged |
| Handlers.EksExampleBinding | lambda/saw_troubleshooting/app.py:47-51 | the EKS request binds to `AWSSupport-TroubleshootEKSWorkerNode`, `{ClusterName: [cluster], WorkerID: [worker]}` and `TroubleshootWorkerNode` |

## Left out

- SSM calls, logging and tracing: the `ssm` client calls are the `Engine`'s answers, given in advance. The `Logger` and `Tracer` calls have no effect on results. The one exception is the status read at utils.py line 69, which the model keeps.
- Time: the 10-second delay is counted, not slept. There is no wall clock.
- SDK-level retries: the AWS SDK client's own retry of throttled or failed `GetAutomationExecution` calls happens before the waiter sees a response and is not modelled.
- Waiter internals: botocore's handling of error responses during polling is not modelled. In botocore, an error response that no acceptor matches ends the wait. In the model, every poll returns a status.
- Missing status path: a poll response without a status path counts as one more non-terminal status.
- JSON nulls: a step whose `Outputs` key holds JSON `null`, and a step or start response without `StepName` or `AutomationExecutionId`, are not modelled. SSM does not produce these.
- Exception re-raise blocks: the `except` blocks of `execute_automation` only log and re-raise, so the model propagates every error unchanged.
- Framework behaviour: `BedrockAgentResolver` routing, request validation and its 422 responses, `lambda_handler` and the OpenAPI schema print are framework behaviour and are not modelled.
- Handlers.Troubleshoot: its own contract states only the rejected-start case. Its success behaviour is stated by `Handlers.TroubleshootReturnsStepOutputs`.
