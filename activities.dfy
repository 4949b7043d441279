/** The three GitHub activities of activities/github_activities.go and the requests they build. */
module Activities {
  import opened Wrappers
  import opened GoTypes
  import Environments
  import GitHubClient

  /** CreateDeploymentInput (declared identically in activities/types.go). */
  datatype CreateDeploymentInput = CreateDeploymentInput(
    githubOwner: GoString, githubRepo: GoString, commitSha: GoString,
    environment: GoString, description: GoString, isTransient: bool,
    harnessExecutionId: GoString, harnessPipelineId: GoString,
    payload: map<GoString, GoString>)

  datatype CreateDeploymentResult = CreateDeploymentResult(deploymentId: Int64, url: GoString, environment: GoString)

  datatype FindDeploymentInput = FindDeploymentInput(
    githubOwner: GoString, githubRepo: GoString, commitSha: GoString, environment: GoString)

  /** UpdateDeploymentStatusInput (declared identically in activities/types.go). */
  datatype UpdateDeploymentStatusInput = UpdateDeploymentStatusInput(
    githubOwner: GoString, githubRepo: GoString, deploymentId: Int64,
    state: GoString, description: GoString, logUrl: GoString, environmentUrl: GoString)

  /** The body of `POST /repos/{owner}/{repo}/deployments`. */
  datatype DeploymentRequest = DeploymentRequest(
    ref: GoString, task: GoString, environment: GoString, description: GoString,
    transientEnvironment: bool, productionEnvironment: bool,
    requiredContexts: seq<GoString>, autoMerge: bool,
    payload: map<GoString, GoString>)

  /** The body of `POST .../deployments/{id}/statuses`; an absent URL is not sent. */
  datatype DeploymentStatusRequest = DeploymentStatusRequest(
    state: GoString, description: GoString, autoInactive: bool,
    logUrl: Option<GoString>, environmentUrl: Option<GoString>)

  /** The filter of `GET /repos/{owner}/{repo}/deployments`. */
  datatype DeploymentsListOptions = DeploymentsListOptions(sha: GoString, environment: GoString, perPage: int)

  /** A deployment as GitHub returns it. */
  datatype Deployment = Deployment(id: Int64, url: GoString, environment: GoString)

  datatype ActivityError =
    | ClientCreationFailed(clientError: GitHubClient.ClientError) // "failed to create GitHub client: %w"
    | CreateFailed(cause: GoString)                                // "failed to create deployment: %w"
    | UpdateFailed(cause: GoString)                                // "failed to update deployment status: %w"
    | ListFailed(cause: GoString)                                  // "failed to list deployments: %w"
    | NoDeploymentFound(commitSha: GoString, environment: GoString) // "no deployment found for commit ..."

  /** An activity's result together with the request it handed to GitHub (None: no API call was made). */
  datatype Call<+R, +Q> = Call(result: Result<R, ActivityError>, request: Option<Q>)

  /** GitHub's answers to the three REST calls, as functions of the client and the request. */
  type CreateDeploymentApi = (GitHubClient.Client, GoString, GoString, DeploymentRequest) -> Result<Deployment, GoString>
  type CreateStatusApi = (GitHubClient.Client, GoString, GoString, Int64, DeploymentStatusRequest) -> Outcome<GoString>
  type ListDeploymentsApi = (GitHubClient.Client, GoString, GoString, DeploymentsListOptions) -> Result<seq<Deployment>, GoString>

  const MaxStatusDescriptionLength := 140
  const ListPageSize := 10

  const TriggeredByKey: GoString := "triggered_by"
  const CreatedAtKey: GoString := "created_at"
  const HarnessExecutionIdKey: GoString := "harness_execution_id"
  const HarnessPipelineIdKey: GoString := "harness_pipeline_id"
  const TriggeredByWorkflow: GoString := "temporal-workflow"

  // ---------------------------------------------------------------- truncateDescription

  /**
   * truncateDescription: keep at most `maxLen` bytes, marking a cut with "...".
   * Go's slice `desc[:maxLen-3]` panics when a cut is needed and `maxLen < 3`.
   */
  function TruncateDescription(desc: GoString, maxLen: int): (r: GoString)
    requires |desc| <= maxLen || maxLen >= 3
    ensures |desc| <= maxLen ==> r == desc
    ensures |desc| > maxLen ==> |r| == maxLen && r[..maxLen - 3] == desc[..maxLen - 3] && r[maxLen - 3..] == "..."
    ensures |r| <= maxLen && |r| <= |desc|
  {
    if |desc| <= maxLen then desc else desc[..maxLen - 3] + "..."
  }

  /** Truncating twice is truncating once. */
  lemma TruncateIdempotent(desc: GoString, maxLen: int)
    requires maxLen >= 3
    ensures TruncateDescription(TruncateDescription(desc, maxLen), maxLen) == TruncateDescription(desc, maxLen)
  {
  }

  /** Every byte before the cut point survives truncation unchanged. */
  lemma TruncateKeepsPrefix(desc: GoString, maxLen: int, k: int)
    requires maxLen >= 3 && 0 <= k < maxLen - 3 && k < |desc|
    ensures TruncateDescription(desc, maxLen)[k] == desc[k]
  {
    if |desc| > maxLen {
      assert TruncateDescription(desc, maxLen)[..maxLen - 3][k] == desc[..maxLen - 3][k];
    }
  }

  // ---------------------------------------------------------------- CreateGitHubDeployment

  /** The payload entries the activity writes before the caller's: trigger, creation time, Harness IDs. */
  function SystemPayload(input: CreateDeploymentInput, createdAt: GoString): (p: map<GoString, GoString>)
    ensures p.Keys == {TriggeredByKey, CreatedAtKey}
                      + (if input.harnessExecutionId != "" then {HarnessExecutionIdKey} else {})
                      + (if input.harnessPipelineId != "" then {HarnessPipelineIdKey} else {})
    ensures p[TriggeredByKey] == TriggeredByWorkflow && p[CreatedAtKey] == createdAt
    ensures HarnessExecutionIdKey in p ==> p[HarnessExecutionIdKey] == input.harnessExecutionId
    ensures HarnessPipelineIdKey in p ==> p[HarnessPipelineIdKey] == input.harnessPipelineId
  {
    var base := map[TriggeredByKey := TriggeredByWorkflow, CreatedAtKey := createdAt];
    var withExecution := if input.harnessExecutionId != "" then base[HarnessExecutionIdKey := input.harnessExecutionId] else base;
    if input.harnessPipelineId != "" then withExecution[HarnessPipelineIdKey := input.harnessPipelineId] else withExecution
  }

  /** The deployment payload: system entries, overridden by the caller's entries. */
  function DeploymentPayload(input: CreateDeploymentInput, createdAt: GoString): (p: map<GoString, GoString>)
    ensures p.Keys == SystemPayload(input, createdAt).Keys + input.payload.Keys
    ensures forall k :: k in p ==>
              p[k] == if k in input.payload then input.payload[k] else SystemPayload(input, createdAt)[k]
  {
    SystemPayload(input, createdAt) + input.payload
  }

  /** What the payload holds, key by key. */
  lemma PayloadContents(input: CreateDeploymentInput, createdAt: GoString)
    ensures var p := DeploymentPayload(input, createdAt);
            && TriggeredByKey in p && CreatedAtKey in p
            && (HarnessExecutionIdKey in p <==> input.harnessExecutionId != "" || HarnessExecutionIdKey in input.payload)
            && (HarnessPipelineIdKey in p <==> input.harnessPipelineId != "" || HarnessPipelineIdKey in input.payload)
            && p.Keys == input.payload.Keys + SystemPayload(input, createdAt).Keys
            && (forall k :: k in input.payload ==> p[k] == input.payload[k])
            && (TriggeredByKey !in input.payload ==> p[TriggeredByKey] == TriggeredByWorkflow)
            && (CreatedAtKey !in input.payload ==> p[CreatedAtKey] == createdAt)
            && (HarnessExecutionIdKey !in input.payload && input.harnessExecutionId != "" ==>
                  p[HarnessExecutionIdKey] == input.harnessExecutionId)
            && (HarnessPipelineIdKey !in input.payload && input.harnessPipelineId != "" ==>
                  p[HarnessPipelineIdKey] == input.harnessPipelineId)
  {
    assert TriggeredByKey != CreatedAtKey;
    assert HarnessExecutionIdKey != HarnessPipelineIdKey;
    assert HarnessExecutionIdKey != TriggeredByKey && HarnessExecutionIdKey != CreatedAtKey;
    assert HarnessPipelineIdKey != TriggeredByKey && HarnessPipelineIdKey != CreatedAtKey;
  }

  /**
   * The payload as the activity builds it: the system map, two conditional inserts,
   * then the caller's entries copied in one at a time (in Go's unspecified map order).
   */
  method BuildPayload(input: CreateDeploymentInput, createdAt: GoString) returns (payload: map<GoString, GoString>)
    ensures payload == DeploymentPayload(input, createdAt)
  {
    payload := map[TriggeredByKey := TriggeredByWorkflow, CreatedAtKey := createdAt];
    if input.harnessExecutionId != "" {
      payload := payload[HarnessExecutionIdKey := input.harnessExecutionId];
    }
    if input.harnessPipelineId != "" {
      payload := payload[HarnessPipelineIdKey := input.harnessPipelineId];
    }
    assert payload == SystemPayload(input, createdAt);
    payload := CopyEntries(payload, input.payload);
  }

  /** Copies every entry of `source` into `target`, one key at a time, in an unspecified order. */
  method CopyEntries(target: map<GoString, GoString>, source: map<GoString, GoString>)
    returns (m: map<GoString, GoString>)
    ensures m == target + source
  {
    m := target;
    var pending := source.Keys;
    while pending != {}
      invariant pending <= source.Keys
      invariant m == target + (map k | k in source.Keys - pending :: source[k])
      decreases pending
    {
      var k :| k in pending;
      m := m[k := source[k]];
      pending := pending - {k};
    }
    assert (map k | k in source.Keys - pending :: source[k]) == source;
  }

  /** The DeploymentRequest of CreateGitHubDeployment. */
  function DeploymentRequestFor(input: CreateDeploymentInput, payload: map<GoString, GoString>): (q: DeploymentRequest)
    ensures q.ref == input.commitSha && q.environment == input.environment && q.description == input.description
    ensures q.task == "deploy" && q.requiredContexts == [] && !q.autoMerge && q.payload == payload
    ensures q.transientEnvironment == input.isTransient
    ensures q.productionEnvironment <==> input.environment == Environments.EnvironmentProduction
  {
    DeploymentRequest(
      ref := input.commitSha,
      task := "deploy",
      environment := input.environment,
      description := input.description,
      transientEnvironment := input.isTransient,
      productionEnvironment := input.environment == "production",
      requiredContexts := [],
      autoMerge := false,
      payload := payload)
  }

  /**
   * The request's fixed and derived fields: a "deploy" task with no required status checks and
   * no auto-merge, flagged production exactly for the configured production environment.
   */
  lemma DeploymentRequestFields(input: CreateDeploymentInput, createdAt: GoString)
    ensures var q := DeploymentRequestFor(input, DeploymentPayload(input, createdAt));
            && q.ref == input.commitSha && q.environment == input.environment && q.description == input.description
            && q.task == "deploy" && q.requiredContexts == [] && !q.autoMerge
            && q.transientEnvironment == input.isTransient
            && (q.productionEnvironment <==> input.environment == Environments.EnvironmentProduction)
            && (q.productionEnvironment ==> Environments.IsValidEnvironment(input.environment))
  {
  }

  /** The create activity once it holds the outcome of creating a client. */
  method CreateDeploymentWith(client: Result<GitHubClient.Client, GitHubClient.ClientError>,
                              input: CreateDeploymentInput, createdAt: GoString, api: CreateDeploymentApi)
    returns (r: Call<CreateDeploymentResult, DeploymentRequest>)
    ensures client.Failure? ==> r == Call(Failure(ClientCreationFailed(client.error)), None)
    ensures client.Success? ==>
              var request := DeploymentRequestFor(input, DeploymentPayload(input, createdAt));
              && r.request == Some(request)
              && match api(client.value, input.githubOwner, input.githubRepo, request)
                 case Failure(e) => r.result == Failure(CreateFailed(e))
                 case Success(d) => r.result == Success(CreateDeploymentResult(d.id, d.url, d.environment))
  {
    if client.Failure? {
      return Call(Failure(ClientCreationFailed(client.error)), None);
    }
    var payload := BuildPayload(input, createdAt);
    var request := DeploymentRequestFor(input, payload);
    var deployment := api(client.value, input.githubOwner, input.githubRepo, request);
    if deployment.Failure? {
      return Call(Failure(CreateFailed(deployment.error)), Some(request));
    }
    var d := deployment.value;
    r := Call(Success(CreateDeploymentResult(d.id, d.url, d.environment)), Some(request));
  }

  // ---------------------------------------------------------------- UpdateGitHubDeploymentStatus

  /** The status request: built with state, truncated description and auto-inactive, then the URLs that are set. */
  method BuildStatusRequest(input: UpdateDeploymentStatusInput) returns (request: DeploymentStatusRequest)
    ensures request.state == input.state
    ensures request.description == TruncateDescription(input.description, MaxStatusDescriptionLength)
    ensures |request.description| <= MaxStatusDescriptionLength
    ensures request.autoInactive
    ensures request.logUrl.Some? <==> input.logUrl != ""
    ensures request.logUrl.Some? ==> request.logUrl.value == input.logUrl
    ensures request.environmentUrl.Some? <==> input.environmentUrl != ""
    ensures request.environmentUrl.Some? ==> request.environmentUrl.value == input.environmentUrl
  {
    request := DeploymentStatusRequest(
      state := input.state,
      description := TruncateDescription(input.description, MaxStatusDescriptionLength),
      autoInactive := true,
      logUrl := None,
      environmentUrl := None);
    if input.logUrl != "" {
      request := request.(logUrl := Some(input.logUrl));
    }
    if input.environmentUrl != "" {
      request := request.(environmentUrl := Some(input.environmentUrl));
    }
  }

  /** The status-update activity once it holds the outcome of creating a client. */
  method UpdateStatusWith(client: Result<GitHubClient.Client, GitHubClient.ClientError>,
                          input: UpdateDeploymentStatusInput, api: CreateStatusApi)
    returns (r: Call<(), DeploymentStatusRequest>)
    ensures client.Failure? ==> r == Call(Failure(ClientCreationFailed(client.error)), None)
    ensures client.Success? ==>
              && r.request.Some?
              && r.request.value.state == input.state
              && r.request.value.description == TruncateDescription(input.description, MaxStatusDescriptionLength)
              && r.request.value.autoInactive
              && (r.request.value.logUrl.Some? <==> input.logUrl != "")
              && (r.request.value.logUrl.Some? ==> r.request.value.logUrl.value == input.logUrl)
              && (r.request.value.environmentUrl.Some? <==> input.environmentUrl != "")
              && (r.request.value.environmentUrl.Some? ==> r.request.value.environmentUrl.value == input.environmentUrl)
              && match api(client.value, input.githubOwner, input.githubRepo, input.deploymentId, r.request.value)
                 case Fail(e) => r.result == Failure(UpdateFailed(e))
                 case Pass => r.result == Success(())
  {
    if client.Failure? {
      return Call(Failure(ClientCreationFailed(client.error)), None);
    }
    var request := BuildStatusRequest(input);
    var status := api(client.value, input.githubOwner, input.githubRepo, input.deploymentId, request);
    if status.Fail? {
      return Call(Failure(UpdateFailed(status.error)), Some(request));
    }
    r := Call(Success(()), Some(request));
  }

  // ---------------------------------------------------------------- FindGitHubDeployment

  /** The selection rule: no deployment is an error, otherwise the first (most recent) one. */
  function SelectDeployment(deployments: seq<Deployment>, input: FindDeploymentInput): (r: Result<Int64, ActivityError>)
    ensures deployments == [] ==> r == Failure(NoDeploymentFound(input.commitSha, input.environment))
    ensures deployments != [] ==> r == Success(deployments[0].id)
    ensures r.Success? ==> exists d :: d in deployments && d.id == r.value
  {
    if |deployments| == 0 then Failure(NoDeploymentFound(input.commitSha, input.environment))
    else Success(deployments[0].id)
  }

  /** The listing filter: the input's commit and environment, one page of ten. */
  function ListOptionsFor(input: FindDeploymentInput): (o: DeploymentsListOptions)
    ensures o.sha == input.commitSha && o.environment == input.environment && o.perPage == ListPageSize
  {
    DeploymentsListOptions(input.commitSha, input.environment, ListPageSize)
  }

  /** The find activity once it holds the outcome of creating a client. */
  function FindDeploymentWith(client: Result<GitHubClient.Client, GitHubClient.ClientError>,
                              input: FindDeploymentInput, api: ListDeploymentsApi): (r: Call<Int64, DeploymentsListOptions>)
    ensures client.Failure? ==> r == Call(Failure(ClientCreationFailed(client.error)), None)
    ensures client.Success? ==> r.request == Some(DeploymentsListOptions(input.commitSha, input.environment, 10))
    ensures client.Success? ==>
              match api(client.value, input.githubOwner, input.githubRepo, ListOptionsFor(input))
              case Failure(e) => r.result == Failure(ListFailed(e))
              case Success(ds) => r.result == SelectDeployment(ds, input)
  {
    if client.Failure? then Call(Failure(ClientCreationFailed(client.error)), None)
    else
      var options := ListOptionsFor(input);
      match api(client.value, input.githubOwner, input.githubRepo, options)
      case Failure(e) => Call(Failure(ListFailed(e)), Some(options))
      case Success(deployments) => Call(SelectDeployment(deployments, input), Some(options))
  }

  /** A successful find names a deployment GitHub listed, and the first one it listed. */
  lemma FoundDeploymentWasListed(client: Result<GitHubClient.Client, GitHubClient.ClientError>,
                                 input: FindDeploymentInput, api: ListDeploymentsApi)
    requires FindDeploymentWith(client, input, api).result.Success?
    ensures client.Success?
    ensures var listed := api(client.value, input.githubOwner, input.githubRepo, ListOptionsFor(input));
            && listed.Success? && |listed.value| > 0
            && FindDeploymentWith(client, input, api).result.value == listed.value[0].id
  {
  }

  // ---------------------------------------------------------------- GitHubActivities

  /** GitHubActivities: the activities bound to a client factory. */
  class GitHubActivities {
    const clientFactory: GitHubClient.ClientFactory

    /** NewGitHubActivities. */
    constructor (clientFactory: GitHubClient.ClientFactory)
      ensures this.clientFactory == clientFactory
    {
      this.clientFactory := clientFactory;
    }

    /** CreateGitHubDeployment: with this factory, client creation always fails and GitHub is never called. */
    method CreateGitHubDeployment(input: CreateDeploymentInput, createdAt: GoString, api: CreateDeploymentApi)
      returns (r: Call<CreateDeploymentResult, DeploymentRequest>)
      ensures r == Call(Failure(ClientCreationFailed(GitHubClient.CreateClientDeprecated)), None)
    {
      var client := clientFactory.CreateClient();
      r := CreateDeploymentWith(client, input, createdAt, api);
    }

    /** UpdateGitHubDeploymentStatus: with this factory, it always fails before any API call. */
    method UpdateGitHubDeploymentStatus(input: UpdateDeploymentStatusInput, api: CreateStatusApi)
      returns (r: Call<(), DeploymentStatusRequest>)
      ensures r == Call(Failure(ClientCreationFailed(GitHubClient.CreateClientDeprecated)), None)
    {
      var client := clientFactory.CreateClient();
      r := UpdateStatusWith(client, input, api);
    }

    /** FindGitHubDeployment: with this factory, it always fails before any API call. */
    method FindGitHubDeployment(input: FindDeploymentInput, api: ListDeploymentsApi)
      returns (r: Call<Int64, DeploymentsListOptions>)
      ensures r == Call(Failure(ClientCreationFailed(GitHubClient.CreateClientDeprecated)), None)
    {
      var client := clientFactory.CreateClient();
      r := FindDeploymentWith(client, input, api);
    }
  }
}
