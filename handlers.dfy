/** The three Bedrock agent endpoints. Each binds its two caller strings to an
    AWS Support automation document, a parameter map and the step whose outputs
    it reports, and returns what `execute_automation` returns for them. */
module Handlers {
  import opened Wrappers
  import opened Records
  import Automation
  import Waiter
  import Steps

  /** A request to one of the endpoints, with the caller's arguments. */
  datatype Scenario =
    | EksWorkerNode(clusterName: string, workerId: string)
    | EcsContainerInstance(clusterName: string, containerInstanceId: string)
    | S3LambdaEvent(s3BucketName: string, lambdaFunctionArn: string)

  /** What an endpoint passes to `execute_automation`. */
  datatype Binding = Binding(documentName: string, parameters: Outputs, stepName: string)

  const EksDocument: string := "AWSSupport-TroubleshootEKSWorkerNode"
  const EcsDocument: string := "AWSSupport-TroubleshootECSContainerInstance"
  const S3LambdaDocument: string := "AWSSupport-TroubleshootLambdaS3Event"

  /** The caller's two arguments, in the order the endpoint declares them. */
  function Arguments(s: Scenario): (string, string) {
    match s
    case EksWorkerNode(c, w) => (c, w)
    case EcsContainerInstance(c, i) => (c, i)
    case S3LambdaEvent(b, f) => (b, f)
  }

  /** The binding table of the three endpoints. */
  function Bind(s: Scenario): (b: Binding)
    ensures |b.parameters| == 2
    ensures forall k :: k in b.parameters ==>
              b.parameters[k] == [Arguments(s).0] || b.parameters[k] == [Arguments(s).1]
  {
    match s
    case EksWorkerNode(clusterName, workerId) =>
      Binding(EksDocument, map["ClusterName" := [clusterName], "WorkerID" := [workerId]],
              "TroubleshootWorkerNode")
    case EcsContainerInstance(clusterName, containerInstanceId) =>
      Binding(EcsDocument, map["ClusterName" := [clusterName], "InstanceId" := [containerInstanceId]],
              "executeChecker")
    case S3LambdaEvent(s3BucketName, lambdaFunctionArn) =>
      Binding(S3LambdaDocument, map["S3BucketName" := [s3BucketName], "LambdaFunctionArn" := [lambdaFunctionArn]],
              "GenerateReport")
  }

  /** The single value bound to `key`, if `key` holds a one-element list. */
  function Single(parameters: Outputs, key: string): Option<string> {
    if key in parameters && |parameters[key]| == 1 then Some(parameters[key][0]) else None
  }

  /** Reads a binding back as the request it was made from, when it is exactly
      the binding of one endpoint. */
  function Unbind(b: Binding): (s: Option<Scenario>) {
    var (key1, key2, step) :=
      if b.documentName == EksDocument then ("ClusterName", "WorkerID", "TroubleshootWorkerNode")
      else if b.documentName == EcsDocument then ("ClusterName", "InstanceId", "executeChecker")
      else ("S3BucketName", "LambdaFunctionArn", "GenerateReport");
    var known := b.documentName in {EksDocument, EcsDocument, S3LambdaDocument};
    var first, second := Single(b.parameters, key1), Single(b.parameters, key2);
    if !known || b.stepName != step || b.parameters.Keys != {key1, key2} || first.None? || second.None? then None
    else if b.documentName == EksDocument then Some(EksWorkerNode(first.value, second.value))
    else if b.documentName == EcsDocument then Some(EcsContainerInstance(first.value, second.value))
    else Some(S3LambdaEvent(first.value, second.value))
  }

  /** A binding determines its request: the document names tell the endpoints
      apart and every parameter value is the caller's string, unmodified. */
  lemma UnbindBind(s: Scenario)
    ensures Unbind(Bind(s)) == Some(s)
  {
  }

  /** Conversely, every binding that reads back as a request is that request's
      binding: the table has no other entries. */
  lemma BindUnbind(b: Binding)
    requires Unbind(b).Some?
    ensures Bind(Unbind(b).value) == b
  {
    var s := Unbind(b).value;
    var p := b.parameters;
    var q := Bind(s).parameters;
    assert q.Keys == p.Keys;
    forall k | k in p ensures q[k] == p[k] {
      assert |p[k]| == 1 && p[k] == [p[k][0]];
    }
  }

  /** The three endpoints use pairwise distinct documents. */
  lemma DocumentsDistinct(s: Scenario, t: Scenario)
    ensures Bind(s).documentName == Bind(t).documentName <==>
              (s.EksWorkerNode? && t.EksWorkerNode?) ||
              (s.EcsContainerInstance? && t.EcsContainerInstance?) ||
              (s.S3LambdaEvent? && t.S3LambdaEvent?)
  {
    assert EksDocument[24] != EcsDocument[24] && EksDocument[24] != S3LambdaDocument[24] &&
           EcsDocument[24] != S3LambdaDocument[24];
  }

  /** An endpoint: `execute_automation` on its binding. */
  function Troubleshoot(engine: Automation.Engine, s: Scenario): (res: Result<Outputs, Error>)
    ensures engine.start(Bind(s).documentName, Bind(s).parameters).Err? ==> res.Err? && res.error.ClientError?
  {
    var b := Bind(s);
    Automation.ExecuteAutomation(engine, b.documentName, b.parameters, b.stepName)
  }

  /** When the engine accepts the endpoint's document and parameters, reports
      "Success" within 30 polls and the finished execution has the endpoint's
      step, the endpoint returns that step's outputs as they are. */
  lemma TroubleshootReturnsStepOutputs(engine: Automation.Engine, s: Scenario, id: string, t: nat,
                                       result: ExecutionResult, i: nat, outputs: Outputs)
    requires engine.start(Bind(s).documentName, Bind(s).parameters) == Ok(id)
    requires t < 30 && engine.poll(id, t) == Waiter.SuccessStatus
    requires forall j: nat :: j < t ==> !Waiter.Terminal(engine.poll(id, j))
    requires engine.fetch(id) == Ok(result)
    requires result.automationExecution.Some? && result.automationExecution.value.status.Some?
    requires Steps.StepsOf(result).Some? && i < |Steps.StepsOf(result).value|
    requires Steps.StepsOf(result).value[i] == Step(Bind(s).stepName, Some(outputs))
    requires forall j :: 0 <= j < i ==> Steps.StepsOf(result).value[j].stepName != Bind(s).stepName
    ensures Troubleshoot(engine, s) == Ok(outputs)
  {
    Automation.ExecuteAfterSuccess(engine, Bind(s).documentName, Bind(s).parameters, Bind(s).stepName, id, t, result);
    Steps.FirstMatchSelected(result, Bind(s).stepName, i);
  }

  /** A concrete EKS request binds to its document, its two singleton parameters and its step. */
  lemma EksExampleBinding()
    ensures Bind(EksWorkerNode("production-cluster", "i-0abc123def456789")) ==
              Binding("AWSSupport-TroubleshootEKSWorkerNode",
                      map["ClusterName" := ["production-cluster"], "WorkerID" := ["i-0abc123def456789"]],
                      "TroubleshootWorkerNode")
  {
  }
}
