/** `mock_env.main()`: the mock environment job. It does not wait for a
  * readiness variable unless told to, sets MOCK_ENV_READY once its
  * Deployment is ready, and then watches the completion job. */
module MockEnv {
  import opened Wrappers
  import opened Text
  import opened Runtime
  import opened Deployment
  import opened JobConfig

  const Settings := JobSettings(
    nameKey := "MOCK_ENV_NAME", nameDefault := "mock-env",
    namespaceKey := "MOCK_ENV_NAMESPACE",
    imageKey := "MOCK_ENV_IMAGE", containerNameKey := "MOCK_ENV_CONTAINER_NAME",
    commandKey := "MOCK_ENV_COMMAND", commandDefault := "[\"sleep\", \"150\"]",
    cpuLimitKey := "MOCK_ENV_CPU_LIMIT", memoryLimitKey := "MOCK_ENV_MEMORY_LIMIT",
    readyVarKey := "MOCK_ENV_READY_VAR", readyVarDefault := "MOCK_ENV_READY",
    waitForBoolKey := "MOCK_ENV_WAIT_FOR_BOOL", waitForBoolDefault := "False",
    waitForVarKey := "MOCK_ENV_WAIT_FOR_VAR", waitForVarDefault := None,
    logNameKey := "MOCK_ENV_LOG_NAME", logNameDefault := "MockEnv",
    cleanupKey := "MOCK_ENV_CLEANUP_RESOURCE")

  /** Runs the job on the shared process. */
  method Launch(p: Process, monitor: bool, parse: string -> Option<seq<string>>, writes: seq<Option<string>>,
                createOk: bool, stream: Stream, nested: Stream, deleteOk: bool) returns (outcome: Outcome)
    modifies p
    ensures var j := JobSpec(Settings, old(p.env), monitor, parse, writes, createOk, stream, nested);
      outcome == j.outcome && p.env == j.env && p.trace == old(p.trace) + j.effects
  {
    outcome := RunJob(p, Settings, monitor, parse, writes, createOk, stream, nested, deleteOk);
  }

  /** With none of its own variables set, the job runs in namespace
    * "default" without waiting (so nothing is read, not even the variable
    * "None"), sets MOCK_ENV_READY when ready, logs as "MockEnv", cleans up,
    * and runs `sleep 150`. */
  lemma Defaults(env0: map<string, string>, monitor: bool, rendered: string)
    requires "MOCK_ENV_NAME" !in env0 && "MOCK_ENV_NAMESPACE" !in env0
    requires "MOCK_ENV_COMMAND" !in env0 && "MOCK_ENV_READY_VAR" !in env0
    requires "MOCK_ENV_WAIT_FOR_BOOL" !in env0 && "MOCK_ENV_WAIT_FOR_VAR" !in env0
    requires "MOCK_ENV_LOG_NAME" !in env0 && "MOCK_ENV_CLEANUP_RESOURCE" !in env0
    ensures var a := ArgsOf(Settings, env0, monitor, rendered);
      && a.name == rendered && a.namespace == "default"
      && !a.waitForReady && GateKey(a.waitForReadyVar) == "None"
      && a.setReady == "MOCK_ENV_READY" && a.logName == "MockEnv" && a.cleanupObject
      && a.commandText == "[\"sleep\", \"150\"]"
      && a.replicas == 1 && a.progressDeadlineSeconds == 500
  {
    LowersToTrueSpelling("False");
    LowersToTrueSpelling("True");
  }

  /** The two boolean settings: waiting is on exactly when
    * MOCK_ENV_WAIT_FOR_BOOL spells "true" in any case, cleanup exactly when
    * MOCK_ENV_CLEANUP_RESOURCE is unset or spells "true". */
  lemma BooleanSettings(env0: map<string, string>, monitor: bool, rendered: string)
    ensures var a := ArgsOf(Settings, env0, monitor, rendered);
      var env1 := HandoffEnv(env0, GetenvOr(env0, "MOCK_ENV_NAME", "mock-env"), rendered,
                             GetenvOr(env0, "MOCK_ENV_NAMESPACE", "default"));
      && (a.waitForReady <==> "MOCK_ENV_WAIT_FOR_BOOL" in env1 && LowersToTrue(env1["MOCK_ENV_WAIT_FOR_BOOL"]))
      && (a.cleanupObject <==> "MOCK_ENV_CLEANUP_RESOURCE" !in env1 || LowersToTrue(env1["MOCK_ENV_CLEANUP_RESOURCE"]))
  {
    LowersToTrueSpelling("False");
    LowersToTrueSpelling("True");
  }

  /** NAME_APPEND "<segment>/<suffix>" gives the Deployment name
    * "mock-env-<suffix>"; a NAME_APPEND with no "/" ends the job with
    * status 1 before any call or write. */
  lemma RenderedName(env0: map<string, string>, monitor: bool, parse: string -> Option<seq<string>>,
                     writes: seq<Option<string>>, createOk: bool, stream: Stream, nested: Stream,
                     segment: string, suffix: string)
    requires "MOCK_ENV_NAME" !in env0
    requires '/' !in segment
    ensures var e := env0["NAME_APPEND" := segment + "/" + suffix];
      RenderName(GetenvOr(e, "MOCK_ENV_NAME", "mock-env"), Getenv(e, "NAME_APPEND")) == Some("mock-env-" + suffix)
    ensures var e := env0["NAME_APPEND" := segment];
      JobSpec(Settings, e, monitor, parse, writes, createOk, stream, nested) == Run(Exited, [], e)
  {
    RenderNameOf("mock-env", segment, suffix);
    assert "mock-env" + "-" + suffix == "mock-env-" + suffix;
  }
}
