/** `mock_app.main()`: the mock application job. By default it waits for
  * MOCK_ENV_READY, the flag the environment job sets once its Deployment is
  * ready, before creating its own Deployment. */
module MockApp {
  import opened Wrappers
  import opened Text
  import opened Runtime
  import opened Deployment
  import opened JobConfig
  import MockEnv

  const Settings := JobSettings(
    nameKey := "MOCK_APP_NAME", nameDefault := "mock-app",
    namespaceKey := "MOCK_APP_NAMESPACE",
    imageKey := "MOCK_APP_IMAGE", containerNameKey := "MOCK_APP_CONTAINER_NAME",
    commandKey := "MOCK_APP_COMMAND", commandDefault := "[\"sleep\", \"60\"]",
    cpuLimitKey := "MOCK_APP_CPU_LIMIT", memoryLimitKey := "MOCK_APP_MEMORY_LIMIT",
    readyVarKey := "MOCK_APP_READY_VAR", readyVarDefault := "MOCK_APP_READY",
    waitForBoolKey := "MOCK_APP_WAIT_FOR_BOOL", waitForBoolDefault := "True",
    waitForVarKey := "MOCK_APP_WAIT_FOR_VAR", waitForVarDefault := Some("MOCK_ENV_READY"),
    logNameKey := "MOCK_APP_LOG_NAME", logNameDefault := "MockApp",
    cleanupKey := "MOCK_APP_CLEANUP_RESOURCE")

  /** Runs the job on the shared process. */
  method Launch(p: Process, monitor: bool, parse: string -> Option<seq<string>>, writes: seq<Option<string>>,
                createOk: bool, stream: Stream, nested: Stream, deleteOk: bool) returns (outcome: Outcome)
    modifies p
    ensures var j := JobSpec(Settings, old(p.env), monitor, parse, writes, createOk, stream, nested);
      outcome == j.outcome && p.env == j.env && p.trace == old(p.trace) + j.effects
  {
    outcome := RunJob(p, Settings, monitor, parse, writes, createOk, stream, nested, deleteOk);
  }

  /** With none of its own variables set, the job runs in namespace
    * "default", waits on MOCK_ENV_READY (the flag the environment job sets
    * by default), sets MOCK_APP_READY when ready, logs as "MockApp", cleans
    * up, and runs `sleep 60`. */
  lemma Defaults(env0: map<string, string>, monitor: bool, rendered: string)
    requires "MOCK_APP_NAME" !in env0 && "MOCK_APP_NAMESPACE" !in env0
    requires "MOCK_APP_COMMAND" !in env0 && "MOCK_APP_READY_VAR" !in env0
    requires "MOCK_APP_WAIT_FOR_BOOL" !in env0 && "MOCK_APP_WAIT_FOR_VAR" !in env0
    requires "MOCK_APP_LOG_NAME" !in env0 && "MOCK_APP_CLEANUP_RESOURCE" !in env0
    ensures var a := ArgsOf(Settings, env0, monitor, rendered);
      && a.name == rendered && a.namespace == "default"
      && a.waitForReady && GateKey(a.waitForReadyVar) == "MOCK_ENV_READY"
      && GateKey(a.waitForReadyVar) == MockEnv.Settings.readyVarDefault
      && a.setReady == "MOCK_APP_READY" && a.logName == "MockApp" && a.cleanupObject
      && a.commandText == "[\"sleep\", \"60\"]"
      && a.replicas == 1 && a.progressDeadlineSeconds == 500
  {
    LowersToTrueSpelling("True");
  }

  /** The two boolean settings: waiting is on exactly when
    * MOCK_APP_WAIT_FOR_BOOL is unset or spells "true", cleanup exactly when
    * MOCK_APP_CLEANUP_RESOURCE is unset or spells "true". */
  lemma BooleanSettings(env0: map<string, string>, monitor: bool, rendered: string)
    ensures var a := ArgsOf(Settings, env0, monitor, rendered);
      var env1 := HandoffEnv(env0, GetenvOr(env0, "MOCK_APP_NAME", "mock-app"), rendered,
                             GetenvOr(env0, "MOCK_APP_NAMESPACE", "default"));
      && (a.waitForReady <==> "MOCK_APP_WAIT_FOR_BOOL" !in env1 || LowersToTrue(env1["MOCK_APP_WAIT_FOR_BOOL"]))
      && (a.cleanupObject <==> "MOCK_APP_CLEANUP_RESOURCE" !in env1 || LowersToTrue(env1["MOCK_APP_CLEANUP_RESOURCE"]))
  {
    LowersToTrueSpelling("True");
  }

  /** Under the defaults, once the environment job has set its ready flag the
    * application job's gate opens on its first read, with no sleep. */
  lemma EnvReadyOpensGate(env0: map<string, string>, monitor: bool, rendered: string, writes: seq<Option<string>>)
    requires "MOCK_APP_NAME" !in env0 && "MOCK_APP_NAMESPACE" !in env0
    requires "MOCK_APP_WAIT_FOR_BOOL" !in env0 && "MOCK_APP_WAIT_FOR_VAR" !in env0
    requires "MOCK_ENV_READY" in env0 && env0["MOCK_ENV_READY"] == "True"
    ensures var a := ArgsOf(Settings, env0, monitor, rendered);
      var env1 := HandoffEnv(env0, "mock-app", rendered, "default");
      GatePhase(a, env1, writes) == Step(true, env1, [ReadSignal("MOCK_ENV_READY")])
  {
    LowersToTrueSpelling("True");
    var env1 := HandoffEnv(env0, "mock-app", rendered, "default");
    assert IsOpen(env1, "MOCK_ENV_READY");
    assert FirstOpenPoll(env1, "MOCK_ENV_READY", writes, 0) == Some(0);
  }

  /** NAME_APPEND "<segment>/<suffix>" gives the Deployment name
    * "mock-app-<suffix>", and COMPLETION_JOB_NAME "mock-app" is rewritten to
    * it with the namespace; a NAME_APPEND with no "/" ends the job with
    * status 1 before any call or write. */
  lemma RenderedName(env0: map<string, string>, monitor: bool, parse: string -> Option<seq<string>>,
                     writes: seq<Option<string>>, createOk: bool, stream: Stream, nested: Stream,
                     segment: string, suffix: string)
    requires "MOCK_APP_NAME" !in env0 && "MOCK_APP_NAMESPACE" !in env0
    requires '/' !in segment
    ensures var e := env0["NAME_APPEND" := segment + "/" + suffix]["COMPLETION_JOB_NAME" := "mock-app"];
      && RenderName(GetenvOr(e, "MOCK_APP_NAME", "mock-app"), Getenv(e, "NAME_APPEND")) == Some("mock-app-" + suffix)
      && var h := HandoffEnv(e, "mock-app", "mock-app-" + suffix, "default");
         h["COMPLETION_JOB_NAME"] == "mock-app-" + suffix && h["COMPLETION_JOB_NAMESPACE"] == "default"
    ensures var e := env0["NAME_APPEND" := segment];
      JobSpec(Settings, e, monitor, parse, writes, createOk, stream, nested) == Run(Exited, [], e)
  {
    RenderNameOf("mock-app", segment, suffix);
    assert "mock-app" + "-" + suffix == "mock-app-" + suffix;
  }
}
