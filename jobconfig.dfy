/** What `mock_env.main()` and `mock_app.main()` share: both render their
  * Deployment name from NAME_APPEND, hand their rendered name over to
  * COMPLETION_JOB_* when that variable names them, read their settings with
  * defaults and call the deployment module's `main()`. The two files differ
  * only in their variable names and defaults, gathered in `JobSettings`. */
module JobConfig {
  import opened Wrappers
  import opened Text
  import opened Runtime
  import opened Deployment

  /** One job's environment variable names and default values. */
  datatype JobSettings = JobSettings(
    nameKey: string, nameDefault: string,
    namespaceKey: string,
    imageKey: string, containerNameKey: string,
    commandKey: string, commandDefault: string,
    cpuLimitKey: string, memoryLimitKey: string,
    readyVarKey: string, readyVarDefault: string,
    waitForBoolKey: string, waitForBoolDefault: string,
    waitForVarKey: string, waitForVarDefault: Option<string>,
    logNameKey: string, logNameDefault: string,
    cleanupKey: string)

  /** Defaults common to both jobs. */
  const DefaultNamespace := "default"
  const DefaultReplicas := 1
  const DefaultDeadlineSeconds := 500
  const DefaultImage := "busybox"
  const DefaultContainerName := "sleep-container"
  const DefaultCpuLimit := "100m"
  const DefaultMemoryLimit := "100Mi"
  const DefaultSelectorKey := "kubernetes.io/os"
  const DefaultSelectorValue := "linux"
  const DefaultCleanup := "True"

  /** `job_name + "-" + NAME_APPEND.split("/", 1)[1]`; None where Python
    * raises: NAME_APPEND unset (AttributeError on None) or holding no "/"
    * (IndexError). */
  function RenderName(jobName: string, nameAppend: Option<string>): (r: Option<string>)
    ensures r.Some? <==> nameAppend.Some? && '/' in nameAppend.value
    ensures r.Some? ==> |r.value| > |jobName|
  {
    match nameAppend
    case None => None
    case Some(v) =>
      AfterFirstFails(v, '/');
      match AfterFirst(v, '/')
      case None => None
      case Some(suffix) =>
        Some(jobName + "-" + suffix)
  }

  /** NAME_APPEND of the form "<segment>/<suffix>" with no "/" in the
    * segment renders as "<job>-<suffix>"; the suffix may hold further "/". */
  lemma RenderNameOf(jobName: string, segment: string, suffix: string)
    requires '/' !in segment
    ensures RenderName(jobName, Some(segment + "/" + suffix)) == Some(jobName + "-" + suffix)
  {
    SplitAtFirst(segment, '/', suffix);
  }

  /** The environment after the handoff: COMPLETION_JOB_NAME and
    * COMPLETION_JOB_NAMESPACE take the rendered name and namespace when
    * COMPLETION_JOB_NAME holds this job's unrendered name. */
  function HandoffEnv(env: map<string, string>, jobName: string, rendered: string, namespace: string): map<string, string> {
    if Getenv(env, "COMPLETION_JOB_NAME") == Some(jobName)
    then env["COMPLETION_JOB_NAME" := rendered]["COMPLETION_JOB_NAMESPACE" := namespace]
    else env
  }

  /** The handoff touches only the two COMPLETION_JOB_* variables, and only
    * when the name matches; afterwards the name variable holds the rendered
    * name exactly when it matched. */
  lemma HandoffFrame(env: map<string, string>, jobName: string, rendered: string, namespace: string)
    ensures var e := HandoffEnv(env, jobName, rendered, namespace);
      && (forall k :: k != "COMPLETION_JOB_NAME" && k != "COMPLETION_JOB_NAMESPACE" ==> Getenv(e, k) == Getenv(env, k))
      && (Getenv(env, "COMPLETION_JOB_NAME") == Some(jobName) ==>
            Getenv(e, "COMPLETION_JOB_NAME") == Some(rendered) && Getenv(e, "COMPLETION_JOB_NAMESPACE") == Some(namespace))
      && (Getenv(env, "COMPLETION_JOB_NAME") != Some(jobName) ==> e == env)
  {
  }

  /** A rendered name is never the unrendered one, so a second handoff by
    * the same job changes nothing. */
  lemma HandoffOnce(env: map<string, string>, jobName: string, nameAppend: Option<string>, namespace: string)
    requires RenderName(jobName, nameAppend).Some?
    ensures var rendered := RenderName(jobName, nameAppend).value;
      HandoffEnv(HandoffEnv(env, jobName, rendered, namespace), jobName, rendered, namespace)
        == HandoffEnv(env, jobName, rendered, namespace)
  {
    var rendered := RenderName(jobName, nameAppend).value;
    assert |rendered| > |jobName|;
  }

  /** The keyword arguments one job passes to the deployment module, read
    * from the environment `env` with the job's defaults. */
  function JobArgs(s: JobSettings, env: map<string, string>, monitor: bool, rendered: string, namespace: string): Args {
    Args(
      monitor := monitor,
      name := rendered,
      namespace := namespace,
      replicas := DefaultReplicas,
      progressDeadlineSeconds := DefaultDeadlineSeconds,
      image := GetenvOr(env, s.imageKey, DefaultImage),
      containerName := GetenvOr(env, s.containerNameKey, DefaultContainerName),
      commandText := GetenvOr(env, s.commandKey, s.commandDefault),
      cpuLimit := GetenvOr(env, s.cpuLimitKey, DefaultCpuLimit),
      memoryLimit := GetenvOr(env, s.memoryLimitKey, DefaultMemoryLimit),
      nodeSelectorKey := GetenvOr(env, "NODE_SELECTOR_KEY", DefaultSelectorKey),
      nodeSelectorValue := GetenvOr(env, "NODE_SELECTOR_VALUE", DefaultSelectorValue),
      setReady := GetenvOr(env, s.readyVarKey, s.readyVarDefault),
      waitForReady := LowersToTrue(GetenvOr(env, s.waitForBoolKey, s.waitForBoolDefault)),
      waitForReadyVar := if s.waitForVarKey in env then Some(env[s.waitForVarKey]) else s.waitForVarDefault,
      logName := GetenvOr(env, s.logNameKey, s.logNameDefault),
      cleanupObject := LowersToTrue(GetenvOr(env, s.cleanupKey, DefaultCleanup)))
  }

  /** One job's `main()`: render, hand off, run the deployment. A failed
    * render exits with status 1 before anything is written or called.
    * `parse` is what `json.loads` makes of a command text. */
  function JobSpec(s: JobSettings, env0: map<string, string>, monitor: bool, parse: string -> Option<seq<string>>,
                   writes: seq<Option<string>>, createOk: bool, stream: Stream, nested: Stream): Run {
    var jobName := GetenvOr(env0, s.nameKey, s.nameDefault);
    match RenderName(jobName, Getenv(env0, "NAME_APPEND"))
    case None => Run(Exited, [], env0)
    case Some(rendered) =>
      var namespace := GetenvOr(env0, s.namespaceKey, DefaultNamespace);
      var env1 := HandoffEnv(env0, jobName, rendered, namespace);
      var a := JobArgs(s, env1, monitor, rendered, namespace);
      var r := RunSpec(a, parse(a.commandText), env1, writes, createOk, stream, nested);
      Run(Caught(r.outcome), r.effects, r.env)
  }

  /** The arguments a job actually runs with, when its name renders. */
  function ArgsOf(s: JobSettings, env0: map<string, string>, monitor: bool, rendered: string): Args {
    var jobName := GetenvOr(env0, s.nameKey, s.nameDefault);
    var namespace := GetenvOr(env0, s.namespaceKey, DefaultNamespace);
    JobArgs(s, HandoffEnv(env0, jobName, rendered, namespace), monitor, rendered, namespace)
  }

  /** A job either exits with status 1 or passes on the (name, status) pair of
    * its deployment unchanged; a name that does not render means no call at all. */
  lemma JobResult(s: JobSettings, env0: map<string, string>, monitor: bool, parse: string -> Option<seq<string>>,
                  writes: seq<Option<string>>, createOk: bool, stream: Stream, nested: Stream)
    ensures var j := JobSpec(s, env0, monitor, parse, writes, createOk, stream, nested);
      var jobName := GetenvOr(env0, s.nameKey, s.nameDefault);
      var rendered := RenderName(jobName, Getenv(env0, "NAME_APPEND"));
      && (j.outcome.Exited? || j.outcome.Returned?)
      && (rendered.None? ==> j.outcome == Exited && j.effects == [] && j.env == env0)
      && (rendered.Some? ==>
            var a := ArgsOf(s, env0, monitor, rendered.value);
            var r := RunSpec(a, parse(a.commandText), HandoffEnv(env0, jobName, rendered.value, GetenvOr(env0, s.namespaceKey, DefaultNamespace)),
                             writes, createOk, stream, nested);
            && j.effects == r.effects
            && (r.outcome.Returned? ==> j.outcome == r.outcome)
            && (!r.outcome.Returned? ==> j.outcome == Exited))
  {
  }

  /** The handoff as `main()` performs it, on `os.environ` in place. */
  method Handoff(p: Process, jobName: string, rendered: string, namespace: string)
    modifies p
    ensures p.env == HandoffEnv(old(p.env), jobName, rendered, namespace)
    ensures p.trace == old(p.trace)
  {
    if Getenv(p.env, "COMPLETION_JOB_NAME") == Some(jobName) {
      p.env := p.env["COMPLETION_JOB_NAME" := rendered];
      p.env := p.env["COMPLETION_JOB_NAMESPACE" := namespace];
    }
  }

  /** One job's `main()` over the shared process. */
  method RunJob(p: Process, s: JobSettings, monitor: bool, parse: string -> Option<seq<string>>,
                writes: seq<Option<string>>, createOk: bool, stream: Stream, nested: Stream, deleteOk: bool)
    returns (outcome: Outcome)
    modifies p
    ensures var j := JobSpec(s, old(p.env), monitor, parse, writes, createOk, stream, nested);
      outcome == j.outcome && p.env == j.env && p.trace == old(p.trace) + j.effects
  {
    var jobName := GetenvOr(p.env, s.nameKey, s.nameDefault);
    var renderedName := RenderName(jobName, Getenv(p.env, "NAME_APPEND"));
    if renderedName.None? {
      // AttributeError or IndexError, caught: exit(1)
      return Exited;
    }
    var renderedNamespace := GetenvOr(p.env, s.namespaceKey, DefaultNamespace);
    Handoff(p, jobName, renderedName.value, renderedNamespace);
    var a := JobArgs(s, p.env, monitor, renderedName.value, renderedNamespace);
    outcome := CreateDeployment(p, a, parse(a.commandText), writes, createOk, stream, nested, deleteOk);
  }
}
