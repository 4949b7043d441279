/** GitHubDeploymentWorkflow of workflows/deployment_workflow.go. */
module Workflows {
  import opened Wrappers
  import opened GoTypes
  import Environments
  import Activities

  /**
   * DeploymentWorkflowInput. The type is declared twice in the source; this is the
   * declaration of workflows/types.go, which adds BranchName.
   */
  datatype DeploymentWorkflowInput = DeploymentWorkflowInput(
    githubOwner: GoString, githubRepo: GoString, commitSha: GoString, branchName: GoString,
    environment: GoString, description: GoString, isTransient: bool,
    harnessPipelineId: GoString, harnessExecutionId: GoString,
    logUrl: GoString, environmentUrl: GoString, payload: map<GoString, GoString>)

  /** A point in workflow time, in nanoseconds; its origin is the workflow engine's. */
  type Time = int

  /** DeploymentWorkflowResult; `totalDuration` is the elapsed duration in nanoseconds. */
  datatype DeploymentWorkflowResult = DeploymentWorkflowResult(
    deploymentId: Int64, finalStatus: GoString, environment: GoString, environmentUrl: GoString,
    completedAt: Time, totalDuration: int, statusUpdates: int)

  datatype WorkflowError = CreateDeploymentFailed(cause: Activities.ActivityError) // "failed to create deployment: %w"

  /** An activity the workflow schedules, with its input. */
  datatype ActivityCall =
    | CreateGitHubDeployment(createInput: Activities.CreateDeploymentInput)
    | UpdateGitHubDeploymentStatus(updateInput: Activities.UpdateDeploymentStatusInput)

  /** The retry policy every activity runs under (executed by the workflow engine). */
  datatype RetryPolicy = RetryPolicy(
    initialIntervalSeconds: int, backoffCoefficient: real, maximumIntervalSeconds: int,
    maximumAttempts: int, nonRetryableErrorTypes: seq<GoString>)

  const ActivityRetryPolicy := RetryPolicy(1, 2.0, 30, 3, ["ValidationError", "AuthenticationError"])
  const StartToCloseTimeoutSeconds := 120
  const HeartbeatTimeoutSeconds := 30
  const WorkflowTimeoutSeconds := 30 * 60

  const Queued: GoString := "queued"
  const InProgress: GoString := "in_progress"
  const SuccessState: GoString := "success"
  const ErrorState: GoString := "error"

  /** getInitialStatusDescription. */
  function InitialStatusDescription(status: GoString, environment: GoString): (d: GoString)
    ensures |environment| + 25 <= |d| <= |environment| + 34
    ensures status == Queued ==>
              |d| == |environment| + 33 && d[..14] == "Deployment to " && d[14..14 + |environment|] == environment
              && d[14 + |environment|..] == " environment queued"
    ensures status == InProgress ==>
              |d| == |environment| + 25 && d[..13] == "Deploying to " && d[13..13 + |environment|] == environment
              && d[13 + |environment|..] == " environment"
    ensures status != Queued && status != InProgress ==>
              |d| == |environment| + 34 && d[..14] == "Deployment to " && d[14..14 + |environment|] == environment
              && d[14 + |environment|..] == " environment started"
  {
    if status == Queued then "Deployment to " + environment + " environment queued"
    else if status == InProgress then "Deploying to " + environment + " environment"
    else "Deployment to " + environment + " environment started"
  }

  /** The description of the final `success` status. */
  function SuccessDescription(environment: GoString): (d: GoString)
    ensures |d| == |environment| + 37
    ensures d[..25] == "Successfully deployed to " && d[25..25 + |environment|] == environment
    ensures d[25 + |environment|..] == " environment"
  {
    "Successfully deployed to " + environment + " environment"
  }

  /** The three descriptions differ for every environment, so each names its status. */
  lemma InitialDescriptionIdentifiesStatus(environment: GoString, other: GoString)
    requires other != Queued && other != InProgress
    ensures InitialStatusDescription(Queued, environment) != InitialStatusDescription(InProgress, environment)
    ensures InitialStatusDescription(Queued, environment) != InitialStatusDescription(other, environment)
    ensures InitialStatusDescription(InProgress, environment) != InitialStatusDescription(other, environment)
  {
    var q := InitialStatusDescription(Queued, environment);
    var p := InitialStatusDescription(InProgress, environment);
    var s := InitialStatusDescription(other, environment);
    assert q[|q| - 1] == 'd' && p[|p| - 1] == 't';
    assert q[|q| - 6..] == "queued" && s[|s| - 7..] == "started";
    assert q[|q| - 2] == 'e' && s[|s| - 2] == 'e';
    assert q[|q| - 3] == 'u' && s[|s| - 3] == 't';
  }

  /**
   * For an environment name of at most 103 bytes (every valid name is), the initial and final
   * descriptions fit GitHub's 140-byte limit and reach it untruncated.
   */
  lemma DescriptionsAreNotTruncated(status: GoString, environment: GoString)
    requires |environment| <= 103
    ensures var d := InitialStatusDescription(status, environment);
            Activities.TruncateDescription(d, Activities.MaxStatusDescriptionLength) == d
    ensures var d := SuccessDescription(environment);
            Activities.TruncateDescription(d, Activities.MaxStatusDescriptionLength) == d
  {
  }

  /** Every valid environment name is at most 103 bytes long. */
  lemma ValidEnvironmentDescriptionsAreNotTruncated(status: GoString, environment: GoString)
    requires Environments.IsValidEnvironment(environment)
    ensures var d := InitialStatusDescription(status, environment);
            Activities.TruncateDescription(d, Activities.MaxStatusDescriptionLength) == d
  {
    Environments.ValidEnvironmentIsShort(environment);
    DescriptionsAreNotTruncated(status, environment);
  }

  /**
   * GitHubDeploymentWorkflow. The activities run under the workflow engine; `create`,
   * `initialUpdate` and `finalUpdate` are the outcomes it reports for the three activities,
   * `startTime` and `endTime` what `workflow.Now` reads. `calls` lists the activities scheduled, in order.
   */
  method GitHubDeploymentWorkflow(input: DeploymentWorkflowInput, startTime: Time, endTime: Time,
                                  create: Result<Activities.CreateDeploymentResult, Activities.ActivityError>,
                                  initialUpdate: Outcome<Activities.ActivityError>,
                                  finalUpdate: Outcome<Activities.ActivityError>)
    returns (r: Result<DeploymentWorkflowResult, WorkflowError>, calls: seq<ActivityCall>)
    // creation is scheduled first, with the workflow's input passed through
    ensures |calls| >= 1 && calls[0].CreateGitHubDeployment?
    ensures var c := calls[0].createInput;
            && c.githubOwner == input.githubOwner && c.githubRepo == input.githubRepo
            && c.commitSha == input.commitSha && c.environment == input.environment
            && c.description == input.description && c.isTransient == input.isTransient
            && c.harnessExecutionId == input.harnessExecutionId && c.harnessPipelineId == input.harnessPipelineId
            && c.payload == input.payload
    // a failed creation aborts: an error, no result, no status update
    ensures create.Failure? ==> r == Failure(CreateDeploymentFailed(create.error)) && |calls| == 1
    // otherwise exactly two status updates, the initial state then success, and a result
    ensures create.Success? ==>
              && r.Success? && |calls| == 3
              && calls[1].UpdateGitHubDeploymentStatus? && calls[2].UpdateGitHubDeploymentStatus?
    ensures create.Success? ==>
              var initial := calls[1].updateInput;
              && (initial.state == InProgress <==> input.logUrl != "")
              && (initial.state == Queued <==> input.logUrl == "")
              && initial.deploymentId == create.value.deploymentId
              && initial.description == InitialStatusDescription(initial.state, input.environment)
              && initial.logUrl == input.logUrl && initial.environmentUrl == ""
              && initial.githubOwner == input.githubOwner && initial.githubRepo == input.githubRepo
    ensures create.Success? ==>
              var final := calls[2].updateInput;
              && final.state == SuccessState
              && final.deploymentId == create.value.deploymentId
              && final.description == SuccessDescription(input.environment)
              && final.logUrl == input.logUrl && final.environmentUrl == input.environmentUrl
              && final.githubOwner == input.githubOwner && final.githubRepo == input.githubRepo
    // the result record
    ensures r.Success? ==>
              var res := r.value;
              && res.deploymentId == create.value.deploymentId
              && res.environment == input.environment
              && res.statusUpdates == (if initialUpdate.Pass? then 1 else 0) + (if finalUpdate.Pass? then 1 else 0)
              && 0 <= res.statusUpdates <= 2
              && (res.finalStatus == SuccessState <==> finalUpdate.Pass?)
              && (res.finalStatus == ErrorState <==> finalUpdate.Fail?)
              && res.environmentUrl == (if finalUpdate.Pass? then input.environmentUrl else "")
              && res.completedAt == endTime && res.totalDuration == endTime - startTime
  {
    var result := DeploymentWorkflowResult(
      deploymentId := 0, finalStatus := "", environment := input.environment, environmentUrl := "",
      completedAt := 0, totalDuration := 0, statusUpdates := 0);

    // 1. Create the deployment.
    var createInput := Activities.CreateDeploymentInput(
      input.githubOwner, input.githubRepo, input.commitSha, input.environment, input.description,
      input.isTransient, input.harnessExecutionId, input.harnessPipelineId, input.payload);
    calls := [CreateGitHubDeployment(createInput)];
    if create.Failure? {
      return Failure(CreateDeploymentFailed(create.error)), calls;
    }
    var deployment := create.value;
    result := result.(deploymentId := deployment.deploymentId);

    // 2. The initial status, best effort.
    var initialStatus := Queued;
    if input.logUrl != "" {
      initialStatus := InProgress;
    }
    var updateInput := Activities.UpdateDeploymentStatusInput(
      input.githubOwner, input.githubRepo, deployment.deploymentId, initialStatus,
      InitialStatusDescription(initialStatus, input.environment), input.logUrl, "");
    calls := calls + [UpdateGitHubDeploymentStatus(updateInput)];
    if initialUpdate.Pass? {
      result := result.(statusUpdates := result.statusUpdates + 1);
    }

    // 3. Straight to success.
    var finalUpdateInput := Activities.UpdateDeploymentStatusInput(
      input.githubOwner, input.githubRepo, deployment.deploymentId, SuccessState,
      SuccessDescription(input.environment), input.logUrl, input.environmentUrl);
    calls := calls + [UpdateGitHubDeploymentStatus(finalUpdateInput)];
    if finalUpdate.Fail? {
      result := result.(finalStatus := ErrorState);
    } else {
      result := result.(statusUpdates := result.statusUpdates + 1, finalStatus := SuccessState,
                        environmentUrl := input.environmentUrl);
    }

    result := result.(completedAt := endTime, totalDuration := endTime - startTime);
    r := Success(result);
  }
}
