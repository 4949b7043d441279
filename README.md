# gh-deploy-wf in Dafny

A model of the deployment-tracking core of `gh-deploy-wf`, a Go worker that records a commit's
rollout as a GitHub deployment from inside a Temporal workflow. It covers:

- **the workflow** (`Workflows.GitHubDeploymentWorkflow`): create the deployment and abort if that fails;
  choose the initial state (`in_progress` when a log URL is given, else `queued`); post it best-effort;
  post one `success` status; build the result record (status-update counter, final status
  `success`/`error`, environment URL only on success);
- **the activities** (`Activities`): description truncation to 140 bytes with a `...` marker, the
  deployment payload (system keys first, the caller's keys override them), the deployment and status
  requests, and the "no deployments is an error, otherwise the first" selection of the find activity.
  Each activity is modelled on the outcome of client creation (`CreateDeploymentWith`, `UpdateStatusWith`,
  `FindDeploymentWith`); the `GitHubActivities` class binds them to a `ClientFactory` whose `CreateClient`
  always fails, and its methods are proved to fail before any request reaches GitHub;
- **the client factory** (`GitHubClient.ClientFactory`): routing on the Enterprise URL, the Enterprise base
  URLs built with `TrimSuffix`, and the installation-ID cache, keyed by organisation and shared by both
  paths, filled from the first matching installation and never invalidated. The class's methods are proved
  equal to the pure specification `ForOrg`/`ForHost`, and the cache properties are lemmas about it;
- **configuration** (`Config`, `Secrets`, `Environments`): `getEnv`, the private-key path, `validateConfig`,
  the stage order of `Load`, `LoadFromFile`'s guards, `GetSecretPath`, and the list of valid environments.

Go strings are byte sequences (`GoTypes.GoString`, one element per byte), so lengths are Go's `len`.
GitHub, the GitHub App authentication library, the file system, the process environment, the environment
parser and the workflow engine are parameters: arrow-typed functions for the REST calls of the activities,
and outcome records (`AppBackend`, the workflow's per-activity outcomes) elsewhere. "No API call is made" is
stated through the `request` field of an activity's `Call` being `None`; "no listing occurs" on a cache hit
is stated as the result not depending on the listing outcome.

The source declares the workflow and activity input types twice (workflows/types.go and
workflows/deployment_workflow.go; activities/types.go and activities/github_activities.go); each is
modelled once, the workflow input in the form with `BranchName`. The Enterprise and GitHub.com lookups
repeat the same cache/scan code; it is modelled once (`ClientForHost`, `ScanInstallations`) with the host
as a parameter.

The workflow has no signal or timer loop, no timeout to `inactive`, no table mapping inbound states, and no
separate update workflow: after a fixed sleep it posts `success` straight away
(workflows/deployment_workflow.go:146-150), and the model does the same.

One quirk of the code is kept as written and stated in `ZeroInstallationIdIsCachedButRejected`: the scan
caches the first matching installation before checking its ID against the "not found" sentinel 0, so a
match with ID 0 is cached yet reported as "no installation", and the next call for that organisation is a
cache hit.

A consequence of the contracts of `Config.LoadSecrets` and `Config.Load`: a loaded key is never empty, so
`Load` never reports the "private key is required" validation error.

## Model

| member | source | states |
|---|---|---|
| `Environments.ValidEnvironments` | config/environments.go:22-30 | the five names, production, staging, development, pr-preview, testing, in that order and pairwise distinct |
| `Environments.Occurs` | config/environments.go:34-39 | the linear search finds `env` iff some element equals it |
| `Environments.IsValidEnvironment` | config/environments.go:33-39 | valid iff the name is an element of `ValidEnvironments()` |
| `Environments.ValidityIsExactMatch` | config/environments.go:35 | comparison is exact: "", "Production" and "production " are invalid, "production" is valid |
| `Environments.ValidEnvironmentIsShort` | config/environments.go:6-18 | every valid name is at most 11 bytes |
| `Secrets.LoadFromFile` | secrets/secrets.go:9-24 | empty path, then read failure, then empty file are errors in that order; success iff the read gives non-empty bytes, returned unchanged |
| `Secrets.EmptyPathReadsNothing` | secrets/secrets.go:10-12 | an empty path fails the same way whatever the file system holds |
| `Secrets.GetSecretPath` | secrets/secrets.go:28-33 | the variable's value when set and non-empty, else the default |
| `Secrets.EmptySecretPathIsUnset` | secrets/secrets.go:29-32 | a variable set to "" behaves as unset |
| `Config.GetEnv` | config/config.go:120-125 | the variable's value when set and non-empty, else the default |
| `Config.EmptyValueIsUnset` | config/config.go:121-124 | a variable set to "" behaves as unset |
| `Config.PrivateKeyPath` | config/config.go:108 | the key path is the secrets directory followed by `/streamcommander.2025-07-12.private-key.pem`, and is never empty |
| `Config.PrivateKeyLocation` | config/config.go:105-108 | the key file is `SECRETS_PATH` (default `.private`) followed by `/streamcommander.2025-07-12.private-key.pem`; the path is never empty |
| `Config.ValidateConfig` | config/config.go:127-135 | App ID 0 fails first, then an empty key; valid iff App ID non-zero and key non-empty |
| `Config.LoadSecrets` | config/config.go:103-117 | stores exactly the loaded key on success, leaves the configuration untouched and wraps the error on failure |
| `Config.Load` | config/config.go:76-100 | parse, load secrets, validate, stopping at the first failure; a result always validates; the missing-key error never escapes |
| `GitHubClient.TrimSuffix` | github/client.go:70 | removes the suffix once when present, else returns the string unchanged |
| `GitHubClient.EnterpriseUrlTrimming` | github/client.go:122-128 | one trailing slash is removed, two leave one; a URL without a trailing slash is used as is |
| `GitHubClient.EnterpriseEndpoints` | github/client.go:122-128 | transport base, REST base and upload base are the trimmed Enterprise URL followed by `/api/v3`, `/api/v3/` and `/api/uploads/`; the REST base is the transport base plus a slash |
| `GitHubClient.InstallationClient` | github/client.go:109-137 | client built iff the installation transport is; it carries the given installation ID, default endpoints on GitHub.com (the twin at lines 196-218) and the Enterprise endpoints otherwise; a transport failure is wrapped |
| `GitHubClient.ForHost` | github/client.go:145-192 | only the requested organisation may be added to the cache and no entry changes; on success the client's installation is the one now cached for the organisation |
| `GitHubClient.EnterpriseForOrg` | github/client.go:49-106 | no Enterprise URL: fails with the cache unchanged; on success the client uses the Enterprise endpoints of the configured URL |
| `GitHubClient.ForOrg` | github/client.go:37-46 | never the "Enterprise URL not configured" error; on success Enterprise endpoints iff a URL is configured, else the defaults |
| `GitHubClient.FirstMatch` | github/client.go:84-92 | the index found is the first installation whose login is the organisation; none iff no login matches |
| `GitHubClient.ForOrgRouting` | github/client.go:37-52 | the Enterprise path iff a URL is configured; the Enterprise path with no URL fails and leaves the cache |
| `GitHubClient.CacheHitSkipsListing` | github/client.go:54-57 | on a hit the cached ID is used, the cache is unchanged, and the App transport and listing outcomes do not matter |
| `GitHubClient.MissCachesFirstMatch` | github/client.go:84-105 | on a miss the first matching installation's ID is cached under the organisation and used for the client |
| `GitHubClient.NoMatchLeavesCache` | github/client.go:94-96 | no matching login: an error and the cache unchanged |
| `GitHubClient.BackendFailureLeavesCache` | github/client.go:59-82 | App transport or listing failure: an error and the cache unchanged |
| `GitHubClient.CacheOnlyGrows` | github/client.go:84-92 | for either host, the Enterprise entry point and the router, entries are never removed or changed; only the requested organisation can be added |
| `GitHubClient.SuccessIsCachedForLaterCalls` | github/client.go:145-149 | after a successful call, the next call for the same organisation is a cache hit with the same installation |
| `GitHubClient.ZeroInstallationIdIsCachedButRejected` | github/client.go:170-182 | whatever the listing and wherever the first match sits, a first match with ID 0 is cached but reported as no installation; the next call uses installation 0 |
| `GitHubClient.ClientFactory.constructor` | github/client.go:26-33 | keeps the configuration and key; the cache starts empty |
| `GitHubClient.ClientFactory.CreateClient` | github/client.go:224-226 | always fails with the deprecation error |
| `GitHubClient.ClientFactory.CreateClientForOrg` | github/client.go:37-46 | result and new cache are those of the routing specification `ForOrg` |
| `GitHubClient.ClientFactory.CreateEnterpriseClientForOrg` | github/client.go:49-106 | result and new cache are those of `EnterpriseForOrg` |
| `GitHubClient.ClientFactory.CreateGitHubComClientForOrg` | github/client.go:145-192 | result and new cache are those of `ForHost` on GitHub.com |
| `GitHubClient.ClientFactory.ClientForHost` | github/client.go:146-191 | cache lookup, App transport, listing, scan and client construction against `ForHost` |
| `GitHubClient.ClientFactory.ScanInstallations` | github/client.go:170-178 | the loop ends with the first match's ID (0 if none) and caches exactly that match |
| `Activities.TruncateDescription` | activities/github_activities.go:250-255 | at most `maxLen` bytes; unchanged when it fits; otherwise exactly `maxLen` bytes, the first `maxLen-3` of the input then "..." |
| `Activities.TruncateIdempotent` | activities/github_activities.go:250-253 | truncating twice equals truncating once |
| `Activities.TruncateKeepsPrefix` | activities/github_activities.go:254 | every byte before the cut point is kept |
| `Activities.SystemPayload` | activities/github_activities.go:88-99 | exactly `triggered_by` and `created_at`, plus each Harness key whose value is non-empty, each with its value |
| `Activities.DeploymentPayload` | activities/github_activities.go:88-104 | the keys of the system and caller maps; a caller's entry wins, every other key keeps its system value |
| `Activities.PayloadContents` | activities/github_activities.go:88-104 | always `triggered_by` and `created_at`; Harness keys only when non-empty or given by the caller; caller entries override every system entry |
| `Activities.BuildPayload` | activities/github_activities.go:88-104 | the insert-then-copy loop yields the system entries overridden by the caller's, in any iteration order |
| `Activities.CopyEntries` | activities/github_activities.go:102-104 | the key-by-key copy loop ends with every source entry, overriding, and every other target entry, whatever the iteration order |
| `Activities.DeploymentRequestFor` | activities/github_activities.go:107-117 | commit, environment, description and payload as given; task "deploy", no required contexts, no auto-merge; production iff the environment is "production" |
| `Activities.DeploymentRequestFields` | activities/github_activities.go:107-117 | task "deploy", no required contexts, no auto-merge, transient as given, production iff the environment is the configured production name |
| `Activities.CreateDeploymentWith` | activities/github_activities.go:82-140 | client failure returns an error with no request; otherwise sends the request built from the payload and maps GitHub's answer |
| `Activities.BuildStatusRequest` | activities/github_activities.go:165-177 | state unchanged, description truncated to 140, auto-inactive set, each URL sent iff non-empty |
| `Activities.UpdateStatusWith` | activities/github_activities.go:159-196 | client failure returns an error with no request; otherwise sends the state, the truncated description, auto-inactive, and each URL exactly when non-empty with its value, and maps GitHub's answer |
| `Activities.SelectDeployment` | activities/github_activities.go:233-239 | an empty list is an error; otherwise the first deployment's ID, which is in the list |
| `Activities.ListOptionsFor` | activities/github_activities.go:221-227 | filters by the input's commit and environment, one page of ten |
| `Activities.FindDeploymentWith` | activities/github_activities.go:215-239 | client failure returns an error with no request; otherwise lists ten by commit and environment and selects |
| `Activities.FoundDeploymentWasListed` | activities/github_activities.go:233-246 | a found ID is that of the first deployment GitHub listed |
| `Activities.GitHubActivities.constructor` | activities/github_activities.go:60-64 | binds the activities to the given factory |
| `Activities.GitHubActivities.CreateGitHubDeployment` | activities/github_activities.go:82-85 | with the factory's `CreateClient`, always fails before calling GitHub |
| `Activities.GitHubActivities.UpdateGitHubDeploymentStatus` | activities/github_activities.go:159-162 | with the factory's `CreateClient`, always fails before calling GitHub |
| `Activities.GitHubActivities.FindGitHubDeployment` | activities/github_activities.go:215-218 | with the factory's `CreateClient`, always fails before calling GitHub |
| `Workflows.InitialStatusDescription` | workflows/deployment_workflow.go:190-198 | queued, in_progress and any other status each give their own sentence, with the environment at a fixed offset; the length is the environment's plus 25 to 34 bytes |
| `Workflows.SuccessDescription` | workflows/deployment_workflow.go:158 | "Successfully deployed to ", the environment, " environment": 37 bytes more than the environment |
| `Workflows.InitialDescriptionIdentifiesStatus` | workflows/deployment_workflow.go:190-198 | the queued, in-progress and other descriptions differ for every environment |
| `Workflows.DescriptionsAreNotTruncated` | workflows/deployment_workflow.go:131-158 | for environments up to 103 bytes the initial and success descriptions fit the 140-byte limit |
| `Workflows.ValidEnvironmentDescriptionsAreNotTruncated` | workflows/deployment_workflow.go:131 | for every valid environment the initial description is sent untruncated |
| `Workflows.GitHubDeploymentWorkflow` | workflows/deployment_workflow.go:60-187 | create failure aborts with no update; else updates exactly [initial, success]; initial is in_progress iff a log URL is given; counter = successful updates (0..2); final status success iff the final update succeeded; environment URL only on success |

## Left out

- The GitHub REST calls, the GitHub App authentication transports and `http.Client` construction: foreign code, modelled as possibly failing oracles.
- Parsing of the Enterprise URLs by `url.Parse`, whose errors the source discards: URLs are modelled as strings.
- The workflow engine: retries (the retry policy is recorded as constants), heartbeats, `workflow.Sleep`, timeouts, replay and cancellation through `ctx`.
- Clocks: the payload's `created_at` and the workflow's start and end times are parameters; `TotalDuration` is modelled as the elapsed duration, not its `String()` text.
- Logging (logging/logger.go and every log call), and the factory's logger field.
- The `.env` loading of `godotenv` and the env-tag parsing of `caarlos0/env`: library behaviour; `Load` takes the parser's outcome as a parameter, and the Temporal, App and rate-limit settings it fills are not read by the core and are not modelled.
- `DeploymentStatusUpdate`: declared but used by no operation.
- `UpdateDeploymentWorkflow` is called at cmd/update-test/main.go:98 but is not defined in the workflows package (workflows/types.go, workflows/deployment_workflow.go); it is not part of this model.
- Concurrent use of a factory: the installation cache is a Go map written without a lock (github/client.go:22, 89, 175), so concurrent activities could race on it; the model treats factory calls as sequential.
- Installation listings past the first page: `ListInstallations` asks for one page of 100 (github/client.go:79, 165), so an organisation whose installation is not on that page is reported as "no installation"; `AppBackend.installations` is that first page (`InstallationsPageSize`).
- Activities.TruncateDescription: its precondition excludes `maxLen < 3` with an over-long input, where the Go slice at activities/github_activities.go:254 panics; the only caller passes 140.
- The command-line tools, integration tests and worker entry point: scripted calls and signal handling.
- Truncation counts bytes, as the source does, so it may cut a multi-byte UTF-8 character; the model does not interpret bytes as text.
