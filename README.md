# k8s-action-runner rollout coordinator in Dafny

This project models the Python GitHub Action that runs two jobs at the same
time against a Kubernetes cluster. The jobs are a mock environment
(`mock_env`) and a mock application (`mock_app`). Each job:

1. renders its Deployment name from `NAME_APPEND`;
2. may rewrite the `COMPLETION_JOB_*` variables to point at itself;
3. may wait on a readiness variable in `os.environ` (up to 120 reads, 5s apart);
4. creates a single-container Deployment;
5. watches the Deployment's status events until it is Failed or Ready;
6. in job mode, when Ready, sets its own ready flag and watches the
   completion job before it reports Completed;
7. deletes its Deployment in a `finally` block.

The driver collects the two `(name, status)` pairs in argument order. It lists
the jobs whose status is "Failed", writes a summary when there are any, and
exits with status 1 in that case.

Modules, one per component:

- `Wrappers`: `Option`.
- `Text`: ASCII `lower()`, `split(c, 1)[1]` and `split(c)[0]`.
- `RolloutStatus`: the status snapshot taken from each event, and the
  Failed/Ready tests that follow the apps/v1 Deployment progress-condition
  convention.
- `Manifest`: the Deployment object a job submits.
- `Runtime`: the shared `Process`. Its `env` field is `os.environ`, updated
  in place. Its ghost `trace` logs every read of the readiness variable,
  sleep, create, watch, ready-flag write, delete and summary write.
- `Deployment`: `deployment()` and `main()` as methods over the `Process`.
  Each method is proved against a run function (`GateSpec`, `CompletionRun`,
  `DecisionRun`, `WatchRun`, `ProvisionSpec`, `ProvisionAndWatch`, `BodyRun`,
  `RunSpec`). The run function gives the outcome, the final environment and
  the calls made.
- `DeploymentProperties`: what those run functions guarantee.
- `JobConfig`: rendering and handoff, shared by both jobs.
- `MockEnv` and `MockApp`: each job's variable names and defaults.
- `Driver`: the action's `main()`.

Outcomes: a job ends with one of three `Outcome`s:

- `Returned(logName, verdict)`: a `(name, status)` pair;
- `Exited`: `exit(1)`;
- `Escaped`: an exception still in flight.

`exit(1)` raises `SystemExit`, which `except Exception` does not catch. The
`finally` cleanup therefore still runs after a gate timeout or a failed
create.

## Model

| member | source | states |
|---|---|---|
| Text.LowersToTrueSpelling | python/jobs/mock_env.py:40-41 | `s.lower() == "true"` holds exactly when `s` is "true" spelt in any mix of upper and lower case |
| Text.IndexOf | python/jobs/mock_env.py:15 | the index found holds the separator and no earlier position does; None exactly when the separator is absent |
| Text.SplitAtFirst | python/jobs/mock_env.py:15 | splitting `p + c + t` at its first `c`, with no `c` in `p`, gives `t` after and `p` before |
| Text.BeforeFirstPrefix | python/main.py:26 | `split("-")[0]` is a prefix of the text with no "-", followed by "-" unless it is the whole text |
| Text.AfterFirstFails | python/jobs/mock_env.py:15 | `split("/", 1)[1]` fails exactly when the text holds no "/" |
| RolloutStatus.Verdict.Label | python/main.py:58 | the status string is "Failed" exactly for Failed and "Ready" exactly for Ready |
| RolloutStatus.TakeSnapshot | python/jobs/functions/deployment.py:152-160 | condition type, status, reason and message come from the first condition only; all four are None without conditions; an available count of 0 is stored as None |
| RolloutStatus.Classify | python/jobs/functions/deployment.py:164-176 | Failed exactly when the status is "False" with reason ProgressDeadlineExceeded; Ready exactly when the available count equals the desired count with status "True"; neither otherwise; so the two never both hold |
| RolloutStatus.ZeroReplicasNeverReady | python/jobs/functions/deployment.py:155 | a desired count of 0 is never classified Ready |
| RolloutStatus.DeadlineFailsRegardlessOfReplicas | python/jobs/functions/deployment.py:182-189 | an exceeded progress deadline is Failed whatever the replica counts |
| RolloutStatus.OnlyFirstConditionCounts | python/jobs/functions/deployment.py:156-159 | conditions after the first never change the classification |
| Manifest.Build | python/jobs/functions/deployment.py:85-125 | the object is apps/v1 Deployment with the given name, replicas and deadline; selector labels = template labels = {"app": name}; one container with the given name, image and command; requests = limits = the given cpu and memory; node selector {key: value} with one matching Equal/NoSchedule toleration |
| Deployment.FirstOpenPoll | python/jobs/functions/deployment.py:74-77 | the poll found is open, within the 120-poll budget, and no earlier poll is open; None means no poll in the budget is open |
| Deployment.WaitForGate | python/jobs/functions/deployment.py:67-79 | the polling loop passes, leaves the environment and logs its reads and sleeps as `GateSpec` says |
| Deployment.FirstVerdictIndex | python/jobs/functions/deployment.py:144-194 | the event found is Failed or Ready and no earlier event is either; None means no event is |
| Deployment.FirstCompletionIndex | python/jobs/functions/deployment.py:203-232 | the completion event found is ready and no earlier one is; None means none is |
| Deployment.WatchCompletion | python/jobs/functions/deployment.py:202-240 | the nested watch returns, and logs its watch and pauses, as `CompletionRun` says; without a completion namespace the client's first fetch raises and the watch escapes before any event |
| Deployment.Decide | python/jobs/functions/deployment.py:164-200 | at a deciding event: Failed is the result; Ready is the result in monitor mode; in job mode the flag is set to "True" and the completion watch runs, as `DecisionRun` says |
| Deployment.WatchRollout | python/jobs/functions/deployment.py:143-245 | the outer watch loop returns, leaves the environment and logs its calls as `WatchRun` says: it stops at the first deciding event and sleeps 10s after every earlier one |
| Deployment.Provision | python/jobs/functions/deployment.py:63-140 | the gate (only with wait_for_ready) and then one create call; the run proceeds only if the gate opened and the create succeeded |
| Deployment.ProvisionThenWatch | python/jobs/functions/deployment.py:63-245 | a job that cannot be provisioned exits with status 1; otherwise the outer watch runs |
| Deployment.RunBody | python/jobs/functions/deployment.py:28-245 | the `try` body reads COMPLETION_JOB_* on entry; a monitor run goes straight to the watch |
| Deployment.RunDeployment | python/jobs/functions/deployment.py:27-267 | a whole call of `deployment()` follows `RunSpec`: an exception becomes exit(1) and the cleanup delete is appended; an unparsable command escapes with no delete; a failed delete does not change the result |
| Deployment.Caught | python/jobs/functions/deployment.py:21-24 | `main()` never lets an exception escape: a returned pair passes on unchanged, and anything else becomes exit(1) |
| Deployment.CreateDeployment | python/jobs/functions/deployment.py:12-24 | `main()` returns the pair in both modes and turns an escaped exception into exit(1) |
| DeploymentProperties.GateBudget | python/jobs/functions/deployment.py:67-79 | at most 120 reads; the gate opens exactly when one of the first 120 polls finds the variable true, which is then the last read, after 5s per earlier read; otherwise 120 reads and 600s of sleep |
| DeploymentProperties.GateCounts | python/jobs/functions/deployment.py:67-79 | the gate makes no call besides its reads |
| DeploymentProperties.CreationImmediateWithoutWait | python/jobs/functions/deployment.py:67-129 | without wait_for_ready nothing is read and the only call is the create |
| DeploymentProperties.GateTimesOut | python/jobs/functions/deployment.py:74-133 | a variable that is not true and never becomes true shuts the gate after 120 reads and 600s |
| DeploymentProperties.StaysShut | python/jobs/functions/deployment.py:75 | writes that never spell "true" keep a shut gate shut at every poll |
| DeploymentProperties.ProvisionCounts | python/jobs/functions/deployment.py:81-129 | provisioning adds exactly one create to the gate's calls when the gate opens, and none otherwise |
| DeploymentProperties.CompletionCounts | python/jobs/functions/deployment.py:202-236 | the completion watch makes no call other than its watch |
| DeploymentProperties.CompletionTiming | python/jobs/functions/deployment.py:203-236 | the completion watch opens its watch first; without a completion namespace it escapes right there; otherwise it sleeps 10s per earlier event and then 15s, ending on that pause, when a completion event is found, and 10s per event when none is |
| DeploymentProperties.CompletionOutcome | python/jobs/functions/deployment.py:203-240 | the completion watch escapes exactly when no completion namespace is set or its stream raises before a ready event, and reports Completed otherwise; it leaves the environment alone |
| DeploymentProperties.WatchCounts | python/jobs/functions/deployment.py:143-240 | besides watches, the outer watch makes exactly one call, the ready-flag write, and only in job mode when the first deciding event is Ready |
| DeploymentProperties.CleanupCounts | python/jobs/functions/deployment.py:254-258 | the cleanup deletes once exactly when cleanup_object holds and the run is not a monitor run |
| DeploymentProperties.RunCounts | python/jobs/functions/deployment.py:27-267 | a run's calls are the provisioning calls (job mode), the watch calls (when provisioning succeeded) and the cleanup calls |
| DeploymentProperties.CreationFollowsGate | python/jobs/functions/deployment.py:67-140 | a job run makes one create call exactly when the gate opens (or is not asked for), and exits with status 1 without creating otherwise |
| DeploymentProperties.CreateFailureExits | python/jobs/functions/deployment.py:127-140 | a failed create call is fatal: the job exits with status 1 and opens no watch; the one create was made when the gate opened |
| DeploymentProperties.CleanupExactlyOnce | python/jobs/functions/deployment.py:252-267 | on every path once the command parses, exactly one delete of the job's own Deployment, as the last call, when cleanup is on outside monitor mode, and none otherwise |
| DeploymentProperties.MonitorOnlyWatches | python/jobs/functions/deployment.py:162-176 | a monitor run makes no read, create, delete or flag write, leaves the environment unchanged and never reports Completed |
| DeploymentProperties.FirstVerdictPrefix | python/jobs/functions/deployment.py:144-194 | two streams that agree up to the first deciding event have the same first deciding event |
| DeploymentProperties.VerdictIgnoresLaterEvents | python/jobs/functions/deployment.py:169-240 | events after the first deciding one, and how the stream ends, do not change the run |
| DeploymentProperties.NoVerdictMeansExit | python/jobs/functions/deployment.py:143-250 | without a deciding event there is no verdict: the unassigned `job_status` raises, and once the command parses the job exits with status 1 |
| DeploymentProperties.VerdictFromFirstDecidingEvent | python/jobs/functions/deployment.py:164-245 | a reported verdict carries the log name; it is Failed exactly when the first deciding event is Failed, Ready exactly in monitor mode otherwise, and Completed exactly in job mode otherwise; conversely a monitor run with a deciding event returns (log name, Failed or Ready) for the first one |
| DeploymentProperties.WatchVerdict | python/jobs/functions/deployment.py:164-245 | the same facts as VerdictFromFirstDecidingEvent, both directions, for the outer watch alone |
| DeploymentProperties.JobReadyRaisesFlagFirst | python/jobs/functions/deployment.py:191-240 | on the job-mode Ready path the flag is "True" afterwards and its write comes right before the completion watch opens; the verdict is Completed even if the nested stream times out with no ready event; the job exits exactly when that stream raises first or no completion namespace is set |
| DeploymentProperties.ReadyWatch | python/jobs/functions/deployment.py:191-240 | on the job-mode Ready path the outer watch's log is its watch, its pauses, the flag write and then the completion watch's log, with that watch's outcome and environment |
| DeploymentProperties.JobFailedLeavesFlag | python/jobs/functions/deployment.py:181-189 | on the job-mode Failed path the verdict is Failed, the environment is unchanged and no flag is written |
| DeploymentProperties.CompletionIgnoresLaterEvents | python/jobs/functions/deployment.py:225-232 | the nested watch reads nothing after its first ready event |
| JobConfig.RenderName | python/jobs/mock_env.py:15 | the name renders exactly when NAME_APPEND is set and holds a "/"; the rendered name is longer than the job name |
| JobConfig.RenderNameOf | python/jobs/mock_env.py:15 | NAME_APPEND "segment/suffix", with no "/" in the segment, renders as "job-suffix" |
| JobConfig.HandoffFrame | python/jobs/mock_env.py:17-19 | the handoff changes only the two COMPLETION_JOB_* variables, sets them to the rendered name and namespace when the name matched, and changes nothing otherwise |
| JobConfig.HandoffOnce | python/jobs/mock_env.py:15-19 | a second handoff by the same job changes nothing |
| JobConfig.JobResult | python/jobs/mock_env.py:13-55 | a job exits with status 1 or passes on its deployment's pair unchanged; an unrenderable name means no call at all |
| JobConfig.Handoff | python/jobs/mock_app.py:17-19 | the in-place rewrite of `os.environ` gives `HandoffEnv` and logs nothing |
| JobConfig.RunJob | python/jobs/mock_env.py:11-55 | a job's `main()` on the shared process follows `JobSpec` |
| MockEnv.Launch | python/jobs/mock_env.py:11-55 | runs the environment job with its settings |
| MockEnv.Defaults | python/jobs/mock_env.py:16-48 | with its variables unset: namespace "default", no wait (the gate key would be "None"), flag MOCK_ENV_READY, log name MockEnv, cleanup on, `sleep 150`, 1 replica, deadline 500 |
| MockEnv.BooleanSettings | python/jobs/mock_env.py:40-48 | waiting is on exactly when MOCK_ENV_WAIT_FOR_BOOL spells "true"; cleanup exactly when MOCK_ENV_CLEANUP_RESOURCE is unset or spells "true" |
| MockEnv.RenderedName | python/jobs/mock_env.py:13-55 | "seg/suffix" renders as "mock-env-suffix"; a NAME_APPEND with no "/" exits with status 1 before any call or write |
| MockApp.Launch | python/jobs/mock_app.py:11-54 | runs the application job with its settings |
| MockApp.Defaults | python/jobs/mock_app.py:16-47 | with its variables unset: namespace "default", waits on MOCK_ENV_READY (the environment job's default flag), flag MOCK_APP_READY, log name MockApp, cleanup on, `sleep 60` |
| MockApp.BooleanSettings | python/jobs/mock_app.py:39-47 | waiting is on exactly when MOCK_APP_WAIT_FOR_BOOL is unset or spells "true"; cleanup exactly when MOCK_APP_CLEANUP_RESOURCE is unset or spells "true" |
| MockApp.EnvReadyOpensGate | python/jobs/mock_app.py:39-42 | under the defaults, once MOCK_ENV_READY is "True" the gate opens on its first read with no sleep |
| MockApp.RenderedName | python/jobs/mock_app.py:13-54 | "seg/suffix" renders as "mock-app-suffix" and COMPLETION_JOB_NAME "mock-app" is rewritten to it with namespace "default"; no "/" exits with status 1 before any call |
| Driver.ConfigureLocal | python/main.py:25-41 | local mode's writes to `os.environ` give `LocalEnv` |
| Driver.LocalLookups | python/main.py:27-40 | after local mode: NAME_APPEND is the local value, COMPLETION_JOB_NAME is "mock-app", the node selector is workerNode=true, and the job names and application namespace are untouched |
| Driver.LocalName | python/main.py:25-27 | under the local NAME_APPEND a job renders as "job-dev-local-" followed by the UUID text up to its first "-" |
| Driver.LocalHandoff | python/main.py:28 | in local mode, with the job names and application namespace at their defaults, the environment job's handoff changes nothing, the application job's points COMPLETION_JOB_* at its rendered name in "default", and the two handoffs commute |
| Driver.Gathered | python/main.py:47-50 | the pairs come back in argument order, one per job, exactly when every job returned a pair |
| Driver.FailedJobsAppend | python/main.py:54-59 | the failed-jobs filter distributes over concatenation |
| Driver.FailedJobsMembers | python/main.py:54-59 | a name is listed exactly when some result pairs it with "Failed"; the list is empty exactly when no status is "Failed" |
| Driver.CollectFailedJobs | python/main.py:54-59 | the loop builds exactly the filtered list, in result order |
| Driver.ExitZeroIffAllSucceed | python/main.py:58-67 | the exit status is 0 or 1, and 0 exactly when every job returned a pair that is not Failed (Ready and Completed both succeed) |
| Driver.Conclude | python/main.py:54-67 | exit status 1 with one summary write listing the failed jobs when there are any; 0 and nothing written otherwise |
| Driver.RunAction | python/main.py:15-72 | `main()` gives `ExitStatus` of the two outcomes, applies local mode to the environment, and writes a summary only when some job failed |

## Left out

- Kubernetes client I/O is not modelled. The outcome of the create call (`createOk`), the two watch streams (finite event sequences, each ending in a timeout or an exception) and the outcome of the delete (`deleteOk`) are inputs. The client set-up, the pool close at python/jobs/functions/deployment.py:270-271 and kube-config loading are not modelled.
- Time: each `asyncio.sleep` is logged as a `Sleep` effect. There is no clock, and the 600s watch timeout is only a way for a stream to end.
- Concurrency: `asyncio.gather` is not modelled. `Driver.RunAction` takes the two jobs' outcomes as inputs, and the other task's writes to the readiness variable are the gate's `writes` input, one optional write per sleep.
- Concurrency: the interleaving of the two jobs is not modelled; the COMPLETION_JOB_* values each job sees are part of its input environment. `asyncio.gather` starts the environment job first, and that task reaches python/jobs/functions/deployment.py:31-32 before its first `await` (the create call, or the first gate sleep). So it always reads COMPLETION_JOB_* before the application task's rewrite at python/jobs/mock_app.py:17-19 runs. Consequently, in local mode, unless COMPLETION_JOB_NAMESPACE is already set, the environment job (outside monitor mode) exits with status 1 as soon as its rollout is Ready: `CompletionRun` makes the nested watch escape without a namespace, as `DeploymentProperties.JobReadyRaisesFlagFirst` states.
- python/jobs/functions/helpers.py is not part of this model. The timestamp is not modelled, and the summary write is one `WriteSummary` effect, not its text.
- The UUID text (python/main.py:25) is an input. So is the result of `json.loads` (python/jobs/functions/deployment.py:42), which is a `parse` function in `JobConfig.JobSpec` or a `parsedCommand` option in `Deployment`.
- `replicas` and `progress_deadline_seconds` are modelled as the integer defaults 1 and 500. When MOCK_*_REPLICAS or MOCK_*_DEPLOY_TIMEOUT is set, Python passes the variable's string. Both strings are sent in the create body (python/jobs/functions/deployment.py:90-91). Only `replicas` is also compared, with the API's integer available count (python/jobs/functions/deployment.py:172, 193, 226), and a string never equals it. That typing is not modelled.
- The nested watch iterates `w.stream` and closes the unused `wC` (python/jobs/functions/deployment.py:202-203, 231). Only the event sequence is modelled, not which watcher object is used.
- Logging and tracebacks are not modelled: every `print` and every keyword argument used only in log text (`wait_description`, `log_description`, `main_job_description`). The `job_name` argument passed at python/jobs/mock_env.py:23 is also left out: `deployment()` never reads it.
- `str.lower()` is modelled on ASCII letters only (`Text.Lower`). The comparison with "true" is still exact, because no non-ASCII character lowers to "t", "r", "u" or "e".
- Driver.RunAction: an exception raised inside the driver's own `try` block (python/main.py:69-72) is not modelled separately. A job's `exit(1)` ends the process with status 1, as the `None` branch of `Gathered` states.
