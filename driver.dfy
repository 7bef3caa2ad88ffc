/** `main()` of the action: local-mode configuration, the two jobs'
  * results in argument order (mock_env first, mock_app second), the list of
  * failed jobs and the exit status. */
module Driver {
  import opened Wrappers
  import opened Text
  import opened RolloutStatus
  import opened Runtime
  import opened Deployment
  import opened JobConfig

  // ---------------------------------------------------------------- local mode

  /** NAME_APPEND in local mode, from the text of a random UUID. */
  function LocalNameAppend(uuidText: string): string {
    "dev-local/dev-local-" + BeforeFirst(uuidText, '-')
  }

  /** The environment after local-mode configuration. */
  function LocalEnv(env: map<string, string>, uuidText: string): map<string, string> {
    env["NAME_APPEND" := LocalNameAppend(uuidText)]
       ["COMPLETION_JOB_NAME" := "mock-app"]
       ["MOCK_ENV_IMAGE" := "busybox"]
       ["MOCK_ENV_CONTAINER_NAME" := "sleep-container"]
       ["MOCK_ENV_COMMAND" := "[\"sleep\", \"150\"]"]
       ["MOCK_ENV_CPU_LIMIT" := "100m"]
       ["MOCK_ENV_MEMORY_LIMIT" := "100Mi"]
       ["MOCK_APP_IMAGE" := "busybox"]
       ["MOCK_APP_CONTAINER_NAME" := "sleep-container"]
       ["MOCK_APP_COMMAND" := "[\"sleep\", \"60\"]"]
       ["MOCK_APP_CPU_LIMIT" := "100m"]
       ["MOCK_APP_MEMORY_LIMIT" := "100Mi"]
       ["NODE_SELECTOR_KEY" := "workerNode"]
       ["NODE_SELECTOR_VALUE" := "true"]
       ["PYTHONASYNCIODEBUG" := "1"]
  }

  method ConfigureLocal(p: Process, uuidText: string)
    modifies p
    ensures p.env == LocalEnv(old(p.env), uuidText)
    ensures p.trace == old(p.trace)
  {
    var shortUuid := BeforeFirst(uuidText, '-');
    p.env := p.env["NAME_APPEND" := "dev-local/dev-local-" + shortUuid];
    p.env := p.env["COMPLETION_JOB_NAME" := "mock-app"];
    p.env := p.env["MOCK_ENV_IMAGE" := "busybox"];
    p.env := p.env["MOCK_ENV_CONTAINER_NAME" := "sleep-container"];
    p.env := p.env["MOCK_ENV_COMMAND" := "[\"sleep\", \"150\"]"];
    p.env := p.env["MOCK_ENV_CPU_LIMIT" := "100m"];
    p.env := p.env["MOCK_ENV_MEMORY_LIMIT" := "100Mi"];
    p.env := p.env["MOCK_APP_IMAGE" := "busybox"];
    p.env := p.env["MOCK_APP_CONTAINER_NAME" := "sleep-container"];
    p.env := p.env["MOCK_APP_COMMAND" := "[\"sleep\", \"60\"]"];
    p.env := p.env["MOCK_APP_CPU_LIMIT" := "100m"];
    p.env := p.env["MOCK_APP_MEMORY_LIMIT" := "100Mi"];
    p.env := p.env["NODE_SELECTOR_KEY" := "workerNode"];
    p.env := p.env["NODE_SELECTOR_VALUE" := "true"];
    p.env := p.env["PYTHONASYNCIODEBUG" := "1"];
  }

  /** What local mode leaves in the variables the jobs read: the local
    * NAME_APPEND, COMPLETION_JOB_NAME "mock-app", the node selector
    * workerNode=true, and the job names and application namespace as they were. */
  lemma LocalLookups(env: map<string, string>, uuidText: string)
    ensures var e := LocalEnv(env, uuidText);
      && Getenv(e, "NAME_APPEND") == Some(LocalNameAppend(uuidText))
      && Getenv(e, "COMPLETION_JOB_NAME") == Some("mock-app")
      && Getenv(e, "NODE_SELECTOR_KEY") == Some("workerNode")
      && Getenv(e, "NODE_SELECTOR_VALUE") == Some("true")
      && Getenv(e, "MOCK_ENV_NAME") == Getenv(env, "MOCK_ENV_NAME")
      && Getenv(e, "MOCK_APP_NAME") == Getenv(env, "MOCK_APP_NAME")
      && Getenv(e, "MOCK_APP_NAMESPACE") == Getenv(env, "MOCK_APP_NAMESPACE")
  {
  }

  /** Under the local NAME_APPEND a job named `jobName` renders as
    * "<jobName>-dev-local-<segment>", where the segment is the UUID text up
    * to its first "-" (and so holds no "-", by `Text.BeforeFirstPrefix`):
    * "mock-env-dev-local-<segment>" and "mock-app-dev-local-<segment>" under
    * the default job names. */
  lemma LocalName(jobName: string, uuidText: string)
    ensures RenderName(jobName, Some(LocalNameAppend(uuidText))) == Some(jobName + "-" + ("dev-local-" + BeforeFirst(uuidText, '-')))
  {
    var suffix := "dev-local-" + BeforeFirst(uuidText, '-');
    assert LocalNameAppend(uuidText) == "dev-local" + "/" + suffix;
    RenderNameOf(jobName, "dev-local", suffix);
  }

  /** In local mode, with the job names and the application namespace left at
    * their defaults, COMPLETION_JOB_NAME names the application job: the
    * environment job's handoff leaves the environment alone, the application
    * job's handoff points it (and the namespace) at the rendered application
    * Deployment, and the two handoffs give the same environment in either order. */
  lemma LocalHandoff(env: map<string, string>, uuidText: string, envRendered: string, envNamespace: string)
    requires "MOCK_ENV_NAME" !in env && "MOCK_APP_NAME" !in env
    requires "MOCK_APP_NAMESPACE" !in env
    ensures var e := LocalEnv(env, uuidText);
      var envName := GetenvOr(e, "MOCK_ENV_NAME", "mock-env");
      var appName := GetenvOr(e, "MOCK_APP_NAME", "mock-app");
      var appRendered := appName + "-dev-local-" + BeforeFirst(uuidText, '-');
      var afterEnv := HandoffEnv(e, envName, envRendered, envNamespace);
      var afterApp := HandoffEnv(e, appName, appRendered, GetenvOr(e, "MOCK_APP_NAMESPACE", DefaultNamespace));
      && afterEnv == e
      && Getenv(afterApp, "COMPLETION_JOB_NAME") == Some(appRendered)
      && Getenv(afterApp, "COMPLETION_JOB_NAMESPACE") == Some("default")
      && HandoffEnv(afterApp, envName, envRendered, envNamespace) == afterApp
      && HandoffEnv(afterEnv, appName, appRendered, "default") == afterApp
  {
    LocalLookups(env, uuidText);
    var appRendered := "mock-app" + "-dev-local-" + BeforeFirst(uuidText, '-');
    assert appRendered[..8] == "mock-app";
    assert appRendered != "mock-env";
  }

  // ---------------------------------------------------------------- results

  /** The (name, status) pairs `gather` hands back, in argument order; None
    * when a job ended with `exit(1)`, which ends the whole process. */
  function Gathered(outcomes: seq<Outcome>): (r: Option<seq<(string, string)>>)
    ensures r.Some? <==> forall i :: 0 <= i < |outcomes| ==> outcomes[i].Returned?
    ensures r.Some? ==>
      && |r.value| == |outcomes|
      && forall i :: 0 <= i < |outcomes| ==> r.value[i] == (outcomes[i].logName, outcomes[i].verdict.Label())
  {
    if outcomes == [] then Some([])
    else if !outcomes[0].Returned? then None
    else match Gathered(outcomes[1..])
      case None => None
      case Some(rest) => Some([(outcomes[0].logName, outcomes[0].verdict.Label())] + rest)
  }

  /** The names of the jobs whose status is the literal "Failed", in order. */
  function FailedJobs(results: seq<(string, string)>): seq<string> {
    if results == [] then []
    else (if results[0].1 == "Failed" then [results[0].0] else []) + FailedJobs(results[1..])
  }

  lemma {:induction false} FailedJobsAppend(x: seq<(string, string)>, y: seq<(string, string)>)
    ensures FailedJobs(x + y) == FailedJobs(x) + FailedJobs(y)
  {
    if x == [] {
      assert x + y == y;
    } else {
      assert (x + y)[0] == x[0];
      assert (x + y)[1..] == x[1..] + y;
      FailedJobsAppend(x[1..], y);
    }
  }

  /** A name is listed exactly when some result carries it with status
    * "Failed", and the list is empty exactly when no result failed. */
  lemma {:induction false} FailedJobsMembers(results: seq<(string, string)>)
    ensures forall n :: n in FailedJobs(results) <==> exists i :: 0 <= i < |results| && results[i] == (n, "Failed")
    ensures FailedJobs(results) == [] <==> forall i :: 0 <= i < |results| ==> results[i].1 != "Failed"
    ensures |FailedJobs(results)| <= |results|
  {
    if results != [] {
      FailedJobsMembers(results[1..]);
      forall n ensures n in FailedJobs(results) <==> exists i :: 0 <= i < |results| && results[i] == (n, "Failed") {
        if n in FailedJobs(results[1..]) {
          var i :| 0 <= i < |results[1..]| && results[1..][i] == (n, "Failed");
          assert results[i + 1] == (n, "Failed");
        }
        if exists i :: 0 <= i < |results| && results[i] == (n, "Failed") {
          var i :| 0 <= i < |results| && results[i] == (n, "Failed");
          if i > 0 {
            assert results[1..][i - 1] == (n, "Failed");
          }
        }
      }
      if results[0].1 != "Failed" {
        forall i | 0 <= i < |results[1..]| ensures results[1..][i] == results[i + 1] {
        }
      }
    }
  }

  /** The loop over the results that builds `failed_jobs`. */
  method CollectFailedJobs(results: seq<(string, string)>) returns (failedJobs: seq<string>)
    ensures failedJobs == FailedJobs(results)
  {
    failedJobs := [];
    var i := 0;
    while i < |results|
      invariant 0 <= i <= |results|
      invariant failedJobs == FailedJobs(results[..i])
    {
      var jobName := results[i].0;
      var jobStatus := results[i].1;
      FailedJobsAppend(results[..i], [results[i]]);
      assert results[..i + 1] == results[..i] + [results[i]];
      if jobStatus == "Failed" {
        failedJobs := failedJobs + [jobName];
      }
      i := i + 1;
    }
    assert results[..i] == results;
  }

  /** The process exit status for the jobs' outcomes. */
  function ExitStatus(outcomes: seq<Outcome>): int {
    match Gathered(outcomes)
    case None => 1
    case Some(results) => if FailedJobs(results) == [] then 0 else 1
  }

  /** The process exits 0 exactly when every job returned a pair and none of
    * them is Failed: Ready and Completed both count as success. */
  lemma ExitZeroIffAllSucceed(outcomes: seq<Outcome>)
    ensures ExitStatus(outcomes) == 0 <==>
      forall i :: 0 <= i < |outcomes| ==> outcomes[i].Returned? && outcomes[i].verdict != Failed
    ensures ExitStatus(outcomes) == 0 || ExitStatus(outcomes) == 1
  {
    var g := Gathered(outcomes);
    if g.Some? {
      FailedJobsMembers(g.value);
      forall i | 0 <= i < |outcomes| ensures g.value[i].1 == "Failed" <==> outcomes[i].verdict == Failed {
        var l := outcomes[i].verdict.Label();
      }
    }
  }

  /** What is left to do once the results are in: collect the failed jobs;
    * if there are any, write the summary and exit 1. */
  method Conclude(p: Process, jobResults: seq<(string, string)>) returns (code: int)
    modifies p
    ensures code == (if FailedJobs(jobResults) == [] then 0 else 1)
    ensures p.env == old(p.env)
    ensures p.trace == old(p.trace) + (if FailedJobs(jobResults) == [] then [] else [WriteSummary(FailedJobs(jobResults))])
  {
    var failedJobs := CollectFailedJobs(jobResults);
    if failedJobs != [] {
      p.trace := p.trace + [WriteSummary(failedJobs)];
      return 1;
    }
    return 0;
  }

  /** `main()`: `localUuid` is the UUID text in local mode; the jobs'
    * outcomes are what the two gathered tasks ended with. */
  method RunAction(p: Process, localUuid: Option<string>, envOutcome: Outcome, appOutcome: Outcome)
    returns (code: int)
    modifies p
    ensures code == ExitStatus([envOutcome, appOutcome])
    ensures p.env == if localUuid.Some? then LocalEnv(old(p.env), localUuid.value) else old(p.env)
    ensures var results := Gathered([envOutcome, appOutcome]);
      p.trace == old(p.trace) +
        if results.Some? && FailedJobs(results.value) != [] then [WriteSummary(FailedJobs(results.value))] else []
  {
    if localUuid.Some? {
      ConfigureLocal(p, localUuid.value);
    }
    var jobResults := Gathered([envOutcome, appOutcome]);
    if jobResults.None? {
      // a job's exit(1) propagates out of gather and ends the process
      return 1;
    }
    code := Conclude(p, jobResults.value);
  }
}
