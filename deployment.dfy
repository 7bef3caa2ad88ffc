/** The rollout coordinator of one job: wait for a readiness variable, create
  * the Deployment, watch its status events until it is Ready or Failed (and,
  * for a job that is Ready, watch the completion job too), and delete the
  * Deployment on the way out.
  *
  * Each phase is a method over the shared `Process`, proved against a
  * function that states the phase's result, the environment it leaves and the
  * calls it logs. The watch streams are finite sequences of events; the other
  * task's writes to the readiness variable are an input. */
module Deployment {
  import opened Wrappers
  import opened Text
  import opened RolloutStatus
  import Manifest
  import opened Runtime

  /** Reads of the readiness variable before giving up (10 minutes at 5s). */
  const MaxPolls: nat := 120
  const PollSeconds: nat := 5
  /** Pause after every event that does not end a watch. */
  const EventPauseSeconds: nat := 10
  /** Pause once the completion job is seen ready ("simulated application run"). */
  const SettleSeconds: nat := 15

  /** How a watch stream ends once its events are used up: its 600s timeout
    * elapses, or the stream itself raises. */
  datatype StreamEnd = TimedOut | Raised

  datatype Stream = Stream(events: seq<WatchedDeployment>, end: StreamEnd)

  /** The keyword arguments of `deployment()`. The command is the JSON text;
    * what `json.loads` makes of it is a separate input. */
  datatype Args = Args(
    monitor: bool,
    name: string,
    namespace: string,
    replicas: int,
    progressDeadlineSeconds: int,
    image: string,
    containerName: string,
    commandText: string,
    cpuLimit: string,
    memoryLimit: string,
    nodeSelectorKey: string,
    nodeSelectorValue: string,
    setReady: string,
    waitForReady: bool,
    waitForReadyVar: Option<string>,
    logName: string,
    cleanupObject: bool)

  /** How a run ends: the (log name, status) pair, `exit(1)`, or an exception
    * escaping `deployment()` (caught and turned into `exit(1)` by `main()`). */
  datatype Outcome = Returned(logName: string, verdict: Verdict) | Exited | Escaped

  /** A run's outcome, the calls it logs and the environment it leaves. */
  datatype Run = Run(outcome: Outcome, effects: seq<Effect>, env: map<string, string>)

  // ---------------------------------------------------------------- gate wait

  /** The variable polled: an unset `wait_for_ready_var` is formatted as "None". */
  function GateKey(v: Option<string>): string {
    v.GetOr("None")
  }

  /** `os.getenv(key, "False").lower() == "true"`. */
  predicate IsOpen(env: map<string, string>, key: string) {
    LowersToTrue(GetenvOr(env, key, "False"))
  }

  /** What the other task stores in the variable while poll `i` sleeps, if anything. */
  function WriteAt(writes: seq<Option<string>>, i: nat): Option<string> {
    if i < |writes| then writes[i] else None
  }

  /** The environment after the other task's first `n` writes. */
  function EnvAfterWrites(env0: map<string, string>, key: string, writes: seq<Option<string>>, n: nat): map<string, string> {
    if n == 0 then env0
    else
      var e := EnvAfterWrites(env0, key, writes, n - 1);
      match WriteAt(writes, n - 1)
      case Some(v) => e[key := v]
      case None => e
  }

  /** Poll `i` finds the variable set to true. */
  predicate OpenAtPoll(env0: map<string, string>, key: string, writes: seq<Option<string>>, i: nat) {
    IsOpen(EnvAfterWrites(env0, key, writes, i), key)
  }

  /** The first poll at or after `from` (and within the budget) that finds the gate open. */
  function FirstOpenPoll(env0: map<string, string>, key: string, writes: seq<Option<string>>, from: nat): (r: Option<nat>)
    requires from <= MaxPolls
    ensures r.Some? ==>
      && from <= r.value < MaxPolls
      && OpenAtPoll(env0, key, writes, r.value)
      && forall j :: from <= j < r.value ==> !OpenAtPoll(env0, key, writes, j)
    ensures r.None? ==> forall j :: from <= j < MaxPolls ==> !OpenAtPoll(env0, key, writes, j)
    decreases MaxPolls - from
  {
    if from == MaxPolls then None
    else if OpenAtPoll(env0, key, writes, from) then Some(from)
    else FirstOpenPoll(env0, key, writes, from + 1)
  }

  lemma FirstOpenAt(env0: map<string, string>, key: string, writes: seq<Option<string>>, i: nat)
    requires i < MaxPolls
    requires forall j :: 0 <= j < i ==> !OpenAtPoll(env0, key, writes, j)
    requires IsOpen(EnvAfterWrites(env0, key, writes, i), key)
    ensures FirstOpenPoll(env0, key, writes, 0) == Some(i)
  {
    assert OpenAtPoll(env0, key, writes, i);
  }

  /** `n` rounds of "read the variable, find it false, sleep 5s". */
  function GateRounds(key: string, n: nat): seq<Effect> {
    if n == 0 then [] else GateRounds(key, n - 1) + [ReadSignal(key)] + [Sleep(PollSeconds)]
  }

  /** The result of a phase that either lets the run go on or stops it. */
  datatype Step = Step(passed: bool, env: map<string, string>, effects: seq<Effect>)

  /** The gate: it opens at the first poll that reads true, after one
    * unanswered round per earlier poll; after 120 unanswered rounds it stays shut. */
  function GateSpec(env0: map<string, string>, key: string, writes: seq<Option<string>>): Step {
    match FirstOpenPoll(env0, key, writes, 0)
    case Some(k) => Step(true, EnvAfterWrites(env0, key, writes, k), GateRounds(key, k) + [ReadSignal(key)])
    case None => Step(false, EnvAfterWrites(env0, key, writes, MaxPolls), GateRounds(key, MaxPolls))
  }

  /** The polling loop: at most 120 reads, a 5s sleep after each false one. */
  method WaitForGate(p: Process, key: string, writes: seq<Option<string>>) returns (passed: bool)
    modifies p
    ensures var g := GateSpec(old(p.env), key, writes);
      passed == g.passed && p.env == g.env && p.trace == old(p.trace) + g.effects
  {
    ghost var env0 := p.env;
    ghost var trace0 := p.trace;
    var i := 0;
    while i < MaxPolls
      invariant 0 <= i <= MaxPolls
      invariant p.env == EnvAfterWrites(env0, key, writes, i)
      invariant p.trace == trace0 + GateRounds(key, i)
      invariant forall j :: 0 <= j < i ==> !OpenAtPoll(env0, key, writes, j)
    {
      p.trace := p.trace + [ReadSignal(key)];
      if LowersToTrue(GetenvOr(p.env, key, "False")) {
        FirstOpenAt(env0, key, writes, i);
        AppendAssoc(trace0, GateRounds(key, i), [ReadSignal(key)]);
        return true;
      }
      p.trace := p.trace + [Sleep(PollSeconds)];
      AppendAssoc3(trace0, GateRounds(key, i), [ReadSignal(key)], [Sleep(PollSeconds)]);
      // the other task may store the variable while this one sleeps
      var w := WriteAt(writes, i);
      if w.Some? {
        p.env := p.env[key := w.value];
      }
      i := i + 1;
    }
    return false;
  }

  // ---------------------------------------------------------------- watches

  /** The index of the first event that is Failed or Ready, if any. */
  function FirstVerdictIndex(events: seq<WatchedDeployment>, replicas: int): (r: Option<nat>)
    ensures r.Some? ==>
      && r.value < |events|
      && Classify(TakeSnapshot(events[r.value]), replicas).Some?
      && forall j :: 0 <= j < r.value ==> Classify(TakeSnapshot(events[j]), replicas).None?
    ensures r.None? ==> forall j :: 0 <= j < |events| ==> Classify(TakeSnapshot(events[j]), replicas).None?
  {
    if events == [] then None
    else if Classify(TakeSnapshot(events[0]), replicas).Some? then Some(0)
    else match FirstVerdictIndex(events[1..], replicas)
      case None => None
      case Some(k) => Some(k + 1)
  }

  /** The index of the first completion-job event that is ready, if any. */
  function FirstCompletionIndex(events: seq<WatchedDeployment>, replicas: int): (r: Option<nat>)
    ensures r.Some? ==>
      && r.value < |events|
      && IsReady(TakeSnapshot(events[r.value]), replicas)
      && forall j :: 0 <= j < r.value ==> !IsReady(TakeSnapshot(events[j]), replicas)
    ensures r.None? ==> forall j :: 0 <= j < |events| ==> !IsReady(TakeSnapshot(events[j]), replicas)
  {
    if events == [] then None
    else if IsReady(TakeSnapshot(events[0]), replicas) then Some(0)
    else match FirstCompletionIndex(events[1..], replicas)
      case None => None
      case Some(k) => Some(k + 1)
  }

  lemma FirstVerdictAt(events: seq<WatchedDeployment>, replicas: int, i: nat)
    requires i < |events|
    requires forall j :: 0 <= j < i ==> Classify(TakeSnapshot(events[j]), replicas).None?
    requires Classify(TakeSnapshot(events[i]), replicas).Some?
    ensures FirstVerdictIndex(events, replicas) == Some(i)
  {
  }

  lemma FirstCompletionAt(events: seq<WatchedDeployment>, replicas: int, j: nat)
    requires j < |events|
    requires forall k :: 0 <= k < j ==> !IsReady(TakeSnapshot(events[k]), replicas)
    requires IsReady(TakeSnapshot(events[j]), replicas)
    ensures FirstCompletionIndex(events, replicas) == Some(j)
  {
  }

  lemma AppendAssoc(x: seq<Effect>, y: seq<Effect>, z: seq<Effect>)
    ensures x + y + z == x + (y + z)
  {
  }

  lemma AppendAssoc3(w: seq<Effect>, x: seq<Effect>, y: seq<Effect>, z: seq<Effect>)
    ensures w + x + y + z == w + (x + y + z)
  {
  }

  /** `n` pauses of `seconds` each. */
  function Sleeps(seconds: nat, n: nat): seq<Effect> {
    if n == 0 then [] else Sleeps(seconds, n - 1) + [Sleep(seconds)]
  }

  /** The nested watch on the completion job. It stops at the first event whose
    * available count equals the primary job's replicas with status "True",
    * after a 15s pause; every other event is followed by a 10s pause. A stream
    * that times out still yields Completed; one that raises escapes. With
    * COMPLETION_JOB_NAMESPACE unset the list call is made with no namespace,
    * which the client rejects as a missing required parameter on the first
    * fetch, before any event: the watch escapes at once. */
  function CompletionRun(logName: string, compNs: Option<string>, compName: Option<string>,
                         replicas: int, nested: Stream, env: map<string, string>): Run {
    var start := [Watch(compNs, compName)];
    if compNs.None? then Run(Escaped, start, env)
    else match FirstCompletionIndex(nested.events, replicas)
    case Some(j) =>
      Run(Returned(logName, Completed), start + Sleeps(EventPauseSeconds, j) + [Sleep(SettleSeconds)], env)
    case None =>
      Run(if nested.end == Raised then Escaped else Returned(logName, Completed),
          start + Sleeps(EventPauseSeconds, |nested.events|), env)
  }

  method WatchCompletion(p: Process, logName: string, compNs: Option<string>, compName: Option<string>,
                         replicas: int, nested: Stream) returns (outcome: Outcome)
    modifies p
    ensures var c := CompletionRun(logName, compNs, compName, replicas, nested, old(p.env));
      outcome == c.outcome && p.env == c.env && p.trace == old(p.trace) + c.effects
  {
    ghost var trace0 := p.trace;
    ghost var start := [Watch(compNs, compName)];
    p.trace := p.trace + start;
    ghost var watched := p.trace;
    if compNs.None? {
      // the client refuses to list without a namespace: the first fetch raises
      return Escaped;
    }
    var j := 0;
    while j < |nested.events|
      invariant 0 <= j <= |nested.events|
      invariant p.env == old(p.env)
      invariant p.trace == watched + Sleeps(EventPauseSeconds, j)
      invariant forall k :: 0 <= k < j ==> !IsReady(TakeSnapshot(nested.events[k]), replicas)
    {
      var statusC := TakeSnapshot(nested.events[j]);
      if statusC.availableReplicas == Some(replicas) && statusC.status == Some("True") {
        FirstCompletionAt(nested.events, replicas, j);
        p.trace := p.trace + [Sleep(SettleSeconds)];
        AppendAssoc3(trace0, start, Sleeps(EventPauseSeconds, j), [Sleep(SettleSeconds)]);
        return Returned(logName, Completed);
      }
      p.trace := p.trace + [Sleep(EventPauseSeconds)];
      AppendAssoc(watched, Sleeps(EventPauseSeconds, j), [Sleep(EventPauseSeconds)]);
      j := j + 1;
    }
    AppendAssoc(trace0, start, Sleeps(EventPauseSeconds, j));
    if nested.end == Raised {
      return Escaped;
    }
    return Returned(logName, Completed);
  }

  /** What the outer watch does at its first Failed or Ready event `e`:
    * Failed, or Ready in monitor mode, is the result; Ready in job mode sets
    * the ready flag and runs the completion watch. */
  function DecisionRun(a: Args, compNs: Option<string>, compName: Option<string>,
                       env: map<string, string>, e: WatchedDeployment, nested: Stream): Run {
    if IsFailed(TakeSnapshot(e)) then Run(Returned(a.logName, Failed), [], env)
    else if a.monitor then Run(Returned(a.logName, Ready), [], env)
    else
      var c := CompletionRun(a.logName, compNs, compName, a.replicas, nested, env[a.setReady := "True"]);
      Run(c.outcome, [SetFlag(a.setReady)] + c.effects, c.env)
  }

  /** The outer watch on the job's own Deployment. It stops at the first
    * Failed or Ready event; every earlier event is followed by a 10s pause.
    * If the stream ends first, `job_status` was never assigned and the final
    * `return` raises. */
  function WatchRun(a: Args, compNs: Option<string>, compName: Option<string>,
                    env: map<string, string>, stream: Stream, nested: Stream): Run {
    var start := [Watch(Some(a.namespace), Some(a.name))];
    match FirstVerdictIndex(stream.events, a.replicas)
    case None =>
      Run(Escaped, start + Sleeps(EventPauseSeconds, |stream.events|), env)
    case Some(i) =>
      var d := DecisionRun(a, compNs, compName, env, stream.events[i], nested);
      Run(d.outcome, start + Sleeps(EventPauseSeconds, i) + d.effects, d.env)
  }

  /** The body of the outer loop for an event that is Failed or Ready. */
  method Decide(p: Process, a: Args, compNs: Option<string>, compName: Option<string>,
                e: WatchedDeployment, nested: Stream) returns (outcome: Outcome)
    requires Classify(TakeSnapshot(e), a.replicas).Some?
    modifies p
    ensures var d := DecisionRun(a, compNs, compName, old(p.env), e, nested);
      outcome == d.outcome && p.env == d.env && p.trace == old(p.trace) + d.effects
  {
    var status := TakeSnapshot(e);
    if status.status == Some("False") && status.reason == Some(ProgressDeadlineExceeded) {
      return Returned(a.logName, Failed);
    }
    if a.monitor {
      return Returned(a.logName, Ready);
    }
    p.env := p.env[a.setReady := "True"];
    p.trace := p.trace + [SetFlag(a.setReady)];
    outcome := WatchCompletion(p, a.logName, compNs, compName, a.replicas, nested);
  }

  method WatchRollout(p: Process, a: Args, compNs: Option<string>, compName: Option<string>,
                      stream: Stream, nested: Stream) returns (outcome: Outcome)
    modifies p
    ensures var w := WatchRun(a, compNs, compName, old(p.env), stream, nested);
      outcome == w.outcome && p.env == w.env && p.trace == old(p.trace) + w.effects
  {
    ghost var trace0 := p.trace;
    ghost var start := [Watch(Some(a.namespace), Some(a.name))];
    p.trace := p.trace + start;
    ghost var watched := p.trace;
    var i := 0;
    while i < |stream.events|
      invariant 0 <= i <= |stream.events|
      invariant p.env == old(p.env)
      invariant p.trace == watched + Sleeps(EventPauseSeconds, i)
      invariant forall j :: 0 <= j < i ==> Classify(TakeSnapshot(stream.events[j]), a.replicas).None?
    {
      var status := TakeSnapshot(stream.events[i]);
      if (status.status == Some("False") && status.reason == Some(ProgressDeadlineExceeded))
         || (status.availableReplicas == Some(a.replicas) && status.status == Some("True")) {
        FirstVerdictAt(stream.events, a.replicas, i);
        outcome := Decide(p, a, compNs, compName, stream.events[i], nested);
        ghost var d := DecisionRun(a, compNs, compName, old(p.env), stream.events[i], nested);
        AppendAssoc3(trace0, start, Sleeps(EventPauseSeconds, i), d.effects);
        return;
      }
      p.trace := p.trace + [Sleep(EventPauseSeconds)];
      AppendAssoc(watched, Sleeps(EventPauseSeconds, i), [Sleep(EventPauseSeconds)]);
      i := i + 1;
    }
    AppendAssoc(trace0, start, Sleeps(EventPauseSeconds, i));
    return Escaped;
  }

  // ---------------------------------------------------------------- whole run


  /** The Deployment object built from the arguments and the parsed command. */
  function BuildBody(a: Args, command: seq<string>): Manifest.Deployment {
    Manifest.Build(a.name, a.replicas, a.progressDeadlineSeconds, a.containerName, a.image, command,
                   a.cpuLimit, a.memoryLimit, a.nodeSelectorKey, a.nodeSelectorValue)
  }

  /** The `finally` block: one delete of the job's own Deployment unless cleanup
    * is off or the run only monitors. */
  function Cleanup(a: Args): seq<Effect> {
    if a.cleanupObject && !a.monitor then [Delete(a.namespace, a.name)] else []
  }

  /** The gate as a job runs it: skipped (open at once, nothing read) without `wait_for_ready`. */
  function GatePhase(a: Args, env0: map<string, string>, writes: seq<Option<string>>): Step {
    if a.waitForReady then GateSpec(env0, GateKey(a.waitForReadyVar), writes) else Step(true, env0, [])
  }

  /** Gate and creation: once the gate opens, one create call is made, and a
    * failed create stops the run. */
  function ProvisionSpec(a: Args, command: seq<string>, env0: map<string, string>,
                         writes: seq<Option<string>>, createOk: bool): Step {
    var g := GatePhase(a, env0, writes);
    if !g.passed then g
    else Step(createOk, g.env, g.effects + [Create(a.namespace, BuildBody(a, command))])
  }

  method Provision(p: Process, a: Args, command: seq<string>, writes: seq<Option<string>>, createOk: bool)
    returns (proceed: bool)
    modifies p
    ensures var s := ProvisionSpec(a, command, old(p.env), writes, createOk);
      proceed == s.passed && p.env == s.env && p.trace == old(p.trace) + s.effects
  {
    ghost var trace0 := p.trace;
    proceed := true;
    if a.waitForReady {
      proceed := WaitForGate(p, GateKey(a.waitForReadyVar), writes);
    }
    if proceed {
      p.trace := p.trace + [Create(a.namespace, BuildBody(a, command))];
      AppendAssoc(trace0, GatePhase(a, old(p.env), writes).effects, [Create(a.namespace, BuildBody(a, command))]);
      proceed := createOk;
    }
  }

  /** A job run's provisioning and outer watch: a job that cannot be
    * provisioned exits with status 1. */
  function ProvisionAndWatch(a: Args, command: seq<string>, compNs: Option<string>, compName: Option<string>,
                             env0: map<string, string>, writes: seq<Option<string>>,
                             createOk: bool, stream: Stream, nested: Stream): Run {
    var pr := ProvisionSpec(a, command, env0, writes, createOk);
    if !pr.passed then Run(Exited, pr.effects, pr.env)
    else
      var w := WatchRun(a, compNs, compName, pr.env, stream, nested);
      Run(w.outcome, pr.effects + w.effects, w.env)
  }

  /** Everything before the `finally` block. The completion job's name and
    * namespace are read from the environment on entry. */
  function BodyRun(a: Args, command: seq<string>, env0: map<string, string>, writes: seq<Option<string>>,
                   createOk: bool, stream: Stream, nested: Stream): Run {
    var compName := Getenv(env0, "COMPLETION_JOB_NAME");
    var compNs := Getenv(env0, "COMPLETION_JOB_NAMESPACE");
    if a.monitor then WatchRun(a, compNs, compName, env0, stream, nested)
    else ProvisionAndWatch(a, command, compNs, compName, env0, writes, createOk, stream, nested)
  }

  /** One call of `deployment()`. If the command is not valid JSON the function
    * raises before `cleanup_object` is bound, so the `finally` block raises in
    * turn and nothing is deleted. */
  function RunSpec(a: Args, parsedCommand: Option<seq<string>>, env0: map<string, string>,
                   writes: seq<Option<string>>, createOk: bool, stream: Stream, nested: Stream): Run {
    match parsedCommand
    case None => Run(Escaped, [], env0)
    case Some(command) =>
      var body := BodyRun(a, command, env0, writes, createOk, stream, nested);
      // an exception from the body becomes exit(1) before the finally block runs
      var outcome := if body.outcome.Escaped? then Exited else body.outcome;
      Run(outcome, body.effects + Cleanup(a), body.env)
  }

  method ProvisionThenWatch(p: Process, a: Args, command: seq<string>, compNs: Option<string>, compName: Option<string>,
                            writes: seq<Option<string>>, createOk: bool, stream: Stream, nested: Stream)
    returns (outcome: Outcome)
    modifies p
    ensures var r := ProvisionAndWatch(a, command, compNs, compName, old(p.env), writes, createOk, stream, nested);
      outcome == r.outcome && p.env == r.env && p.trace == old(p.trace) + r.effects
  {
    ghost var trace0 := p.trace;
    var proceed := Provision(p, a, command, writes, createOk);
    if !proceed {
      // gate timed out or the create call failed: exit(1)
      return Exited;
    }
    ghost var provisioned := p.env;
    outcome := WatchRollout(p, a, compNs, compName, stream, nested);
    AppendAssoc(trace0, ProvisionSpec(a, command, old(p.env), writes, createOk).effects,
                WatchRun(a, compNs, compName, provisioned, stream, nested).effects);
  }

  /** The `try` block of `deployment()` once the command has been parsed. */
  method RunBody(p: Process, a: Args, command: seq<string>, writes: seq<Option<string>>,
                 createOk: bool, stream: Stream, nested: Stream) returns (outcome: Outcome)
    modifies p
    ensures var b := BodyRun(a, command, old(p.env), writes, createOk, stream, nested);
      outcome == b.outcome && p.env == b.env && p.trace == old(p.trace) + b.effects
  {
    var completionJobName := Getenv(p.env, "COMPLETION_JOB_NAME");
    var completionJobNamespace := Getenv(p.env, "COMPLETION_JOB_NAMESPACE");
    if a.monitor {
      outcome := WatchRollout(p, a, completionJobNamespace, completionJobName, stream, nested);
    } else {
      outcome := ProvisionThenWatch(p, a, command, completionJobNamespace, completionJobName, writes, createOk, stream, nested);
    }
  }

  /** `deployment()`. `deleteOk` says whether the cleanup delete succeeds; a
    * failed delete is only logged, so it takes no part in the result. */
  method RunDeployment(p: Process, a: Args, parsedCommand: Option<seq<string>>, writes: seq<Option<string>>,
                       createOk: bool, stream: Stream, nested: Stream, deleteOk: bool) returns (outcome: Outcome)
    modifies p
    ensures var r := RunSpec(a, parsedCommand, old(p.env), writes, createOk, stream, nested);
      outcome == r.outcome && p.env == r.env && p.trace == old(p.trace) + r.effects
  {
    if parsedCommand.None? {
      return Escaped;
    }
    ghost var trace0 := p.trace;
    outcome := RunBody(p, a, parsedCommand.value, writes, createOk, stream, nested);
    ghost var body := BodyRun(a, parsedCommand.value, old(p.env), writes, createOk, stream, nested);
    AppendAssoc(trace0, body.effects, Cleanup(a));
    if outcome.Escaped? {
      // except Exception: exit(1)
      outcome := Exited;
    }
    // finally: the delete is attempted on every path; its failure is only logged
    if a.cleanupObject && !a.monitor {
      p.trace := p.trace + [Delete(a.namespace, a.name)];
    }
  }

  /** What `main()` makes of one run: the pair is passed on in either mode, and
    * an exception that escaped `deployment()` becomes `exit(1)`. */
  function Caught(o: Outcome): (r: Outcome)
    ensures !r.Escaped?
    ensures o.Returned? ==> r == o
    ensures !o.Returned? ==> r == Exited
  {
    if o.Escaped? then Exited else o
  }

  /** `main()` of the deployment module: dispatch on monitor mode. */
  method CreateDeployment(p: Process, a: Args, parsedCommand: Option<seq<string>>, writes: seq<Option<string>>,
                          createOk: bool, stream: Stream, nested: Stream, deleteOk: bool) returns (outcome: Outcome)
    modifies p
    ensures var r := RunSpec(a, parsedCommand, old(p.env), writes, createOk, stream, nested);
      outcome == Caught(r.outcome) && p.env == r.env && p.trace == old(p.trace) + r.effects
  {
    var result := RunDeployment(p, a, parsedCommand, writes, createOk, stream, nested, deleteOk);
    if a.monitor {
      outcome := result;
    } else {
      match result
      case Returned(name, status) => outcome := Returned(name, status);
      case _ => outcome := result;
    }
    if outcome.Escaped? {
      outcome := Exited;
    }
  }
}
