/** What a run of `deployment()` guarantees, stated over the run function
  * `Deployment.RunSpec` that the methods of module Deployment are proved to
  * follow: the gate's budget, when the Deployment is created, that cleanup
  * deletes exactly once on every path, and how the watch verdicts arise. */
module DeploymentProperties {
  import opened Wrappers
  import opened Text
  import opened RolloutStatus
  import opened Runtime
  import opened Deployment

  /** The kinds of call counted in a log. */
  datatype Kind = Reads | Creates | Watches | Flags | Deletes

  predicate IsKind(e: Effect, k: Kind) {
    match k
    case Reads => e.ReadSignal?
    case Creates => e.Create?
    case Watches => e.Watch?
    case Flags => e.SetFlag?
    case Deletes => e.Delete?
  }

  /** How many effects of kind `k` a log holds. */
  function Count(s: seq<Effect>, k: Kind): nat {
    if s == [] then 0 else (if IsKind(s[0], k) then 1 else 0) + Count(s[1..], k)
  }

  /** The seconds slept in a log. */
  function SleepTotal(s: seq<Effect>): nat {
    if s == [] then 0 else (if s[0].Sleep? then s[0].seconds else 0) + SleepTotal(s[1..])
  }

  lemma {:induction false} CountAppend(x: seq<Effect>, y: seq<Effect>, k: Kind)
    ensures Count(x + y, k) == Count(x, k) + Count(y, k)
    ensures SleepTotal(x + y) == SleepTotal(x) + SleepTotal(y)
  {
    if x != [] {
      assert (x + y)[0] == x[0];
      assert (x + y)[1..] == x[1..] + y;
      CountAppend(x[1..], y, k);
    } else {
      assert x + y == y;
    }
  }

  lemma CountSingle(e: Effect, k: Kind)
    ensures Count([e], k) == if IsKind(e, k) then 1 else 0
    ensures SleepTotal([e]) == if e.Sleep? then e.seconds else 0
  {
    assert [e][1..] == [];
  }

  lemma CountSnoc(x: seq<Effect>, e: Effect, k: Kind)
    ensures Count(x + [e], k) == Count(x, k) + if IsKind(e, k) then 1 else 0
    ensures SleepTotal(x + [e]) == SleepTotal(x) + if e.Sleep? then e.seconds else 0
  {
    CountAppend(x, [e], k);
    CountSingle(e, k);
  }

  /** A run of pauses holds no call and sleeps `n` times `seconds`. */
  lemma {:induction false} SleepsCount(seconds: nat, n: nat, k: Kind)
    ensures Count(Sleeps(seconds, n), k) == 0
    ensures SleepTotal(Sleeps(seconds, n)) == seconds * n
  {
    if n > 0 {
      SleepsCount(seconds, n - 1, k);
      CountSnoc(Sleeps(seconds, n - 1), Sleep(seconds), k);
    }
  }

  /** `n` unanswered gate rounds read the variable `n` times and sleep `5 * n` seconds. */
  lemma {:induction false} GateRoundsCount(key: string, n: nat, k: Kind)
    ensures Count(GateRounds(key, n), k) == if k == Reads then n else 0
    ensures SleepTotal(GateRounds(key, n)) == PollSeconds * n
  {
    if n > 0 {
      var x := GateRounds(key, n - 1);
      GateRoundsCount(key, n - 1, k);
      assert GateRounds(key, n) == (x + [ReadSignal(key)]) + [Sleep(PollSeconds)];
      CountSnoc(x, ReadSignal(key), k);
      CountSnoc(x + [ReadSignal(key)], Sleep(PollSeconds), k);
    }
  }

  /** The gate reads the variable at most 120 times. It opens exactly when one
    * of those reads finds it true, the last read made, with a 5s sleep after
    * each earlier read; otherwise it makes all 120 reads and sleeps 600s in all. */
  lemma GateBudget(env0: map<string, string>, key: string, writes: seq<Option<string>>)
    ensures var g := GateSpec(env0, key, writes);
      && Count(g.effects, Reads) <= MaxPolls
      && (g.passed <==> exists i :: 0 <= i < MaxPolls && OpenAtPoll(env0, key, writes, i))
      && (g.passed ==>
            && Count(g.effects, Reads) >= 1
            && OpenAtPoll(env0, key, writes, Count(g.effects, Reads) - 1)
            && SleepTotal(g.effects) == PollSeconds * (Count(g.effects, Reads) - 1))
      && (!g.passed ==> Count(g.effects, Reads) == MaxPolls && SleepTotal(g.effects) == 600)
  {
    match FirstOpenPoll(env0, key, writes, 0)
    case Some(n) =>
      GateRoundsCount(key, n, Reads);
      CountSnoc(GateRounds(key, n), ReadSignal(key), Reads);
      assert OpenAtPoll(env0, key, writes, n);
    case None =>
      GateRoundsCount(key, MaxPolls, Reads);
  }

  /** The gate makes no call other than reading the variable. */
  lemma GateCounts(a: Args, env0: map<string, string>, writes: seq<Option<string>>, k: Kind)
    requires k != Reads
    ensures Count(GatePhase(a, env0, writes).effects, k) == 0
  {
    if a.waitForReady {
      var key := GateKey(a.waitForReadyVar);
      match FirstOpenPoll(env0, key, writes, 0)
      case Some(n) =>
        GateRoundsCount(key, n, k);
        CountSnoc(GateRounds(key, n), ReadSignal(key), k);
      case None =>
        GateRoundsCount(key, MaxPolls, k);
    }
  }

  /** Without `wait_for_ready` nothing is read and the run goes straight to creation. */
  lemma CreationImmediateWithoutWait(a: Args, command: seq<string>, env0: map<string, string>,
                                     writes: seq<Option<string>>, createOk: bool)
    requires !a.waitForReady
    ensures ProvisionSpec(a, command, env0, writes, createOk).effects == [Create(a.namespace, BuildBody(a, command))]
  {
  }

  /** If the variable is false (or unset) and whatever the other task stores is
    * not "true" either, the gate shuts after 120 reads and 600s. */
  lemma GateTimesOut(env0: map<string, string>, key: string, writes: seq<Option<string>>)
    requires !IsOpen(env0, key)
    requires forall i :: 0 <= i < |writes| && writes[i].Some? ==> !LowersToTrue(writes[i].value)
    ensures !GateSpec(env0, key, writes).passed
    ensures Count(GateSpec(env0, key, writes).effects, Reads) == MaxPolls
    ensures SleepTotal(GateSpec(env0, key, writes).effects) == 600
  {
    forall i: nat | i <= MaxPolls ensures !OpenAtPoll(env0, key, writes, i) {
      StaysShut(env0, key, writes, i);
    }
    GateBudget(env0, key, writes);
  }

  lemma {:induction false} StaysShut(env0: map<string, string>, key: string, writes: seq<Option<string>>, n: nat)
    requires !IsOpen(env0, key)
    requires forall i :: 0 <= i < |writes| && writes[i].Some? ==> !LowersToTrue(writes[i].value)
    ensures !IsOpen(EnvAfterWrites(env0, key, writes, n), key)
  {
    if n > 0 {
      StaysShut(env0, key, writes, n - 1);
    }
  }

  /** Creation adds exactly one create call to what the gate logged, if the gate opens. */
  lemma ProvisionCounts(a: Args, command: seq<string>, env0: map<string, string>,
                        writes: seq<Option<string>>, createOk: bool, k: Kind)
    ensures var g := GatePhase(a, env0, writes);
      Count(ProvisionSpec(a, command, env0, writes, createOk).effects, k)
        == Count(g.effects, k) + if g.passed && k == Creates then 1 else 0
  {
    var g := GatePhase(a, env0, writes);
    if g.passed {
      CountSnoc(g.effects, Create(a.namespace, BuildBody(a, command)), k);
    }
  }

  /** The completion watch makes no call but its one watch. */
  lemma CompletionCounts(logName: string, compNs: Option<string>, compName: Option<string>,
                         replicas: int, nested: Stream, env: map<string, string>, k: Kind)
    requires k != Watches
    ensures Count(CompletionRun(logName, compNs, compName, replicas, nested, env).effects, k) == 0
  {
    var start := [Watch(compNs, compName)];
    CountSingle(Watch(compNs, compName), k);
    match FirstCompletionIndex(nested.events, replicas)
    case Some(j) =>
      SleepsCount(EventPauseSeconds, j, k);
      CountAppend(start, Sleeps(EventPauseSeconds, j), k);
      CountSnoc(start + Sleeps(EventPauseSeconds, j), Sleep(SettleSeconds), k);
    case None =>
      SleepsCount(EventPauseSeconds, |nested.events|, k);
      CountAppend(start, Sleeps(EventPauseSeconds, |nested.events|), k);
  }

  /** The first deciding event of the outer watch is Ready and the run is a job run. */
  predicate RaisesFlag(a: Args, stream: Stream) {
    && !a.monitor
    && FirstVerdictIndex(stream.events, a.replicas).Some?
    && !IsFailed(TakeSnapshot(stream.events[FirstVerdictIndex(stream.events, a.replicas).value]))
  }

  /** The completion watch's pauses: 10s after each event before the first
    * ready one, then 15s and nothing more; 10s after every event when none is
    * ready. Without a completion namespace it escapes before any event. */
  lemma CompletionTiming(logName: string, compNs: Option<string>, compName: Option<string>,
                         replicas: int, nested: Stream, env: map<string, string>)
    ensures var c := CompletionRun(logName, compNs, compName, replicas, nested, env);
      && c.effects[0] == Watch(compNs, compName)
      && (compNs.None? ==> c.outcome == Escaped && c.effects == [Watch(compNs, compName)])
      && (compNs.Some? && FirstCompletionIndex(nested.events, replicas).Some? ==>
            && c.effects[|c.effects| - 1] == Sleep(SettleSeconds)
            && SleepTotal(c.effects)
                 == EventPauseSeconds * FirstCompletionIndex(nested.events, replicas).value + SettleSeconds)
      && (compNs.Some? && FirstCompletionIndex(nested.events, replicas).None? ==>
            SleepTotal(c.effects) == EventPauseSeconds * |nested.events|)
  {
    var start := [Watch(compNs, compName)];
    CountSingle(Watch(compNs, compName), Reads);
    match FirstCompletionIndex(nested.events, replicas)
    case Some(j) =>
      SleepsCount(EventPauseSeconds, j, Reads);
      CountAppend(start, Sleeps(EventPauseSeconds, j), Reads);
      CountSnoc(start + Sleeps(EventPauseSeconds, j), Sleep(SettleSeconds), Reads);
    case None =>
      SleepsCount(EventPauseSeconds, |nested.events|, Reads);
      CountAppend(start, Sleeps(EventPauseSeconds, |nested.events|), Reads);
  }

  /** The outer watch sets the ready flag once on the job-mode Ready path and
    * otherwise makes no call but watches. */
  lemma WatchCounts(a: Args, compNs: Option<string>, compName: Option<string>,
                    env: map<string, string>, stream: Stream, nested: Stream, k: Kind)
    requires k != Watches
    ensures Count(WatchRun(a, compNs, compName, env, stream, nested).effects, k)
         == if k == Flags && RaisesFlag(a, stream) then 1 else 0
  {
    var start := [Watch(Some(a.namespace), Some(a.name))];
    CountSingle(Watch(Some(a.namespace), Some(a.name)), k);
    match FirstVerdictIndex(stream.events, a.replicas)
    case None =>
      SleepsCount(EventPauseSeconds, |stream.events|, k);
      CountAppend(start, Sleeps(EventPauseSeconds, |stream.events|), k);
    case Some(i) =>
      var d := DecisionRun(a, compNs, compName, env, stream.events[i], nested);
      SleepsCount(EventPauseSeconds, i, k);
      CountAppend(start, Sleeps(EventPauseSeconds, i), k);
      if !IsFailed(TakeSnapshot(stream.events[i])) && !a.monitor {
        var c := CompletionRun(a.logName, compNs, compName, a.replicas, nested, env[a.setReady := "True"]);
        CompletionCounts(a.logName, compNs, compName, a.replicas, nested, env[a.setReady := "True"], k);
        CountSingle(SetFlag(a.setReady), k);
        CountAppend([SetFlag(a.setReady)], c.effects, k);
      }
      CountAppend(start + Sleeps(EventPauseSeconds, i), d.effects, k);
  }

  lemma CleanupCounts(a: Args, k: Kind)
    ensures Count(Cleanup(a), k) == if k == Deletes && a.cleanupObject && !a.monitor then 1 else 0
  {
    if a.cleanupObject && !a.monitor {
      CountSingle(Delete(a.namespace, a.name), k);
    }
  }

  /** A run's calls are those of its phases: provisioning (job mode only), the
    * outer watch (when provisioning succeeded) and the cleanup. */
  lemma RunCounts(a: Args, command: seq<string>, env0: map<string, string>,
                  writes: seq<Option<string>>, createOk: bool, stream: Stream, nested: Stream, k: Kind)
    ensures var pr := ProvisionSpec(a, command, env0, writes, createOk);
      var compName := Getenv(env0, "COMPLETION_JOB_NAME");
      var compNs := Getenv(env0, "COMPLETION_JOB_NAMESPACE");
      Count(RunSpec(a, Some(command), env0, writes, createOk, stream, nested).effects, k)
        == (if a.monitor then 0 else Count(pr.effects, k))
         + (if a.monitor || pr.passed
            then Count(WatchRun(a, compNs, compName, if a.monitor then env0 else pr.env, stream, nested).effects, k)
            else 0)
         + Count(Cleanup(a), k)
  {
    var b := BodyRun(a, command, env0, writes, createOk, stream, nested);
    var pr := ProvisionSpec(a, command, env0, writes, createOk);
    CountAppend(b.effects, Cleanup(a), k);
    if !a.monitor && pr.passed {
      var w := WatchRun(a, Getenv(env0, "COMPLETION_JOB_NAMESPACE"), Getenv(env0, "COMPLETION_JOB_NAME"), pr.env, stream, nested);
      CountAppend(pr.effects, w.effects, k);
    }
  }

  /** The gate opens (or is not asked for) exactly when the run makes its one
    * create call; otherwise the job exits with status 1 without creating anything. */
  lemma CreationFollowsGate(a: Args, command: seq<string>, env0: map<string, string>, writes: seq<Option<string>>,
                            createOk: bool, stream: Stream, nested: Stream)
    requires !a.monitor
    ensures var r := RunSpec(a, Some(command), env0, writes, createOk, stream, nested);
      var opens := GatePhase(a, env0, writes).passed;
      && Count(r.effects, Creates) == (if opens then 1 else 0)
      && (opens ==> Create(a.namespace, BuildBody(a, command)) in r.effects)
      && (!opens ==> r.outcome == Exited)
  {
    var pr := ProvisionSpec(a, command, env0, writes, createOk);
    var compName := Getenv(env0, "COMPLETION_JOB_NAME");
    var compNs := Getenv(env0, "COMPLETION_JOB_NAMESPACE");
    RunCounts(a, command, env0, writes, createOk, stream, nested, Creates);
    ProvisionCounts(a, command, env0, writes, createOk, Creates);
    GateCounts(a, env0, writes, Creates);
    WatchCounts(a, compNs, compName, pr.env, stream, nested, Creates);
    CleanupCounts(a, Creates);
    if GatePhase(a, env0, writes).passed {
      var b := BodyRun(a, command, env0, writes, createOk, stream, nested);
      assert Create(a.namespace, BuildBody(a, command)) in pr.effects;
      assert Create(a.namespace, BuildBody(a, command)) in b.effects;
    }
  }

  /** Cleanup: unless the command failed to parse, the log holds exactly one
    * delete, of the job's own Deployment and as its last call, when cleanup is
    * on and the run is not a monitor run, and none otherwise, whatever the
    * outcome (gate timeout, failed create, Failed, Completed or no verdict). */
  lemma CleanupExactlyOnce(a: Args, parsedCommand: Option<seq<string>>, env0: map<string, string>,
                           writes: seq<Option<string>>, createOk: bool, stream: Stream, nested: Stream)
    ensures var r := RunSpec(a, parsedCommand, env0, writes, createOk, stream, nested);
      && Count(r.effects, Deletes) == (if parsedCommand.Some? && a.cleanupObject && !a.monitor then 1 else 0)
      && (parsedCommand.Some? && a.cleanupObject && !a.monitor ==>
            r.effects[|r.effects| - 1] == Delete(a.namespace, a.name))
  {
    if parsedCommand.Some? {
      var command := parsedCommand.value;
      var pr := ProvisionSpec(a, command, env0, writes, createOk);
      var compName := Getenv(env0, "COMPLETION_JOB_NAME");
      var compNs := Getenv(env0, "COMPLETION_JOB_NAMESPACE");
      RunCounts(a, command, env0, writes, createOk, stream, nested, Deletes);
      ProvisionCounts(a, command, env0, writes, createOk, Deletes);
      GateCounts(a, env0, writes, Deletes);
      WatchCounts(a, compNs, compName, if a.monitor then env0 else pr.env, stream, nested, Deletes);
      CleanupCounts(a, Deletes);
    }
  }

  /** A monitor run never reads the gate, creates, deletes or sets the ready
    * flag, leaves the environment as it found it, and never reports Completed. */
  lemma MonitorOnlyWatches(a: Args, parsedCommand: Option<seq<string>>, env0: map<string, string>,
                           writes: seq<Option<string>>, createOk: bool, stream: Stream, nested: Stream, k: Kind)
    requires a.monitor
    requires k != Watches
    ensures var r := RunSpec(a, parsedCommand, env0, writes, createOk, stream, nested);
      && Count(r.effects, k) == 0
      && r.env == env0
      && (r.outcome.Returned? ==> r.outcome.verdict != Completed)
  {
    if parsedCommand.Some? {
      var compName := Getenv(env0, "COMPLETION_JOB_NAME");
      var compNs := Getenv(env0, "COMPLETION_JOB_NAMESPACE");
      RunCounts(a, parsedCommand.value, env0, writes, createOk, stream, nested, k);
      WatchCounts(a, compNs, compName, env0, stream, nested, k);
      CleanupCounts(a, k);
    }
  }

  /** The first event at which the two streams could differ decides nothing:
    * a verdict found by the first event after which nothing more is read. */
  lemma {:induction false} FirstVerdictPrefix(s1: seq<WatchedDeployment>, s2: seq<WatchedDeployment>, replicas: int, i: nat)
    requires FirstVerdictIndex(s1, replicas) == Some(i)
    requires i < |s2| && s2[..i + 1] == s1[..i + 1]
    ensures FirstVerdictIndex(s2, replicas) == Some(i)
  {
    assert forall j :: 0 <= j <= i ==> s2[j] == s1[j] by {
      forall j | 0 <= j <= i ensures s2[j] == s1[j] {
        assert s2[..i + 1][j] == s1[..i + 1][j];
      }
    }
  }

  /** The run stops reading the outer stream at its first Failed or Ready
    * event: any stream that agrees up to that event, however it goes on or
    * ends, gives the same outcome, log and environment. */
  lemma VerdictIgnoresLaterEvents(a: Args, parsedCommand: Option<seq<string>>, env0: map<string, string>,
                                  writes: seq<Option<string>>, createOk: bool,
                                  stream: Stream, stream2: Stream, nested: Stream, i: nat)
    requires FirstVerdictIndex(stream.events, a.replicas) == Some(i)
    requires i < |stream2.events| && stream2.events[..i + 1] == stream.events[..i + 1]
    ensures RunSpec(a, parsedCommand, env0, writes, createOk, stream2, nested)
         == RunSpec(a, parsedCommand, env0, writes, createOk, stream, nested)
  {
    FirstVerdictPrefix(stream.events, stream2.events, a.replicas, i);
    assert stream2.events[i] == stream2.events[..i + 1][i];
    assert stream2.events[i] == stream.events[i];
    forall compNs: Option<string>, compName: Option<string>, env: map<string, string>
      ensures WatchRun(a, compNs, compName, env, stream2, nested) == WatchRun(a, compNs, compName, env, stream, nested)
    {
    }
  }

  /** Without a Failed or Ready event the run never reports a verdict: the
    * unassigned `job_status` raises and the job exits with status 1. */
  lemma NoVerdictMeansExit(a: Args, parsedCommand: Option<seq<string>>, env0: map<string, string>,
                           writes: seq<Option<string>>, createOk: bool, stream: Stream, nested: Stream)
    requires FirstVerdictIndex(stream.events, a.replicas).None?
    ensures !RunSpec(a, parsedCommand, env0, writes, createOk, stream, nested).outcome.Returned?
    ensures parsedCommand.Some? ==> RunSpec(a, parsedCommand, env0, writes, createOk, stream, nested).outcome == Exited
  {
  }

  /** A failed create call is fatal: the job exits with status 1 whatever the
    * watch streams hold, after the gate opened and the one create was made. */
  lemma CreateFailureExits(a: Args, command: seq<string>, env0: map<string, string>,
                           writes: seq<Option<string>>, stream: Stream, nested: Stream)
    requires !a.monitor
    ensures var r := RunSpec(a, Some(command), env0, writes, false, stream, nested);
      && r.outcome == Exited
      && (GatePhase(a, env0, writes).passed ==> Count(r.effects, Creates) == 1)
      && Count(r.effects, Watches) == 0
  {
    var pr := ProvisionSpec(a, command, env0, writes, false);
    RunCounts(a, command, env0, writes, false, stream, nested, Creates);
    RunCounts(a, command, env0, writes, false, stream, nested, Watches);
    ProvisionCounts(a, command, env0, writes, false, Creates);
    ProvisionCounts(a, command, env0, writes, false, Watches);
    GateCounts(a, env0, writes, Creates);
    GateCounts(a, env0, writes, Watches);
    CleanupCounts(a, Creates);
    CleanupCounts(a, Watches);
  }

  /** A reported verdict comes from the first Failed or Ready event: Failed
    * exactly when that event is Failed; otherwise Ready in monitor mode and
    * Completed in job mode. The pair carries the job's log name. Conversely a
    * monitor run whose stream has such an event returns that verdict. */
  lemma VerdictFromFirstDecidingEvent(a: Args, parsedCommand: Option<seq<string>>, env0: map<string, string>,
                                      writes: seq<Option<string>>, createOk: bool, stream: Stream, nested: Stream)
    ensures var r := RunSpec(a, parsedCommand, env0, writes, createOk, stream, nested);
      r.outcome.Returned? ==>
        && r.outcome.logName == a.logName
        && FirstVerdictIndex(stream.events, a.replicas).Some?
        && var e := stream.events[FirstVerdictIndex(stream.events, a.replicas).value];
           && (r.outcome.verdict == Failed <==> IsFailed(TakeSnapshot(e)))
           && (r.outcome.verdict == Ready <==> a.monitor && !IsFailed(TakeSnapshot(e)))
           && (r.outcome.verdict == Completed <==> !a.monitor && !IsFailed(TakeSnapshot(e)))
    ensures var r := RunSpec(a, parsedCommand, env0, writes, createOk, stream, nested);
      a.monitor && parsedCommand.Some? && FirstVerdictIndex(stream.events, a.replicas).Some? ==>
        var e := stream.events[FirstVerdictIndex(stream.events, a.replicas).value];
        r.outcome == Returned(a.logName, if IsFailed(TakeSnapshot(e)) then Failed else Ready)
  {
    var compName := Getenv(env0, "COMPLETION_JOB_NAME");
    var compNs := Getenv(env0, "COMPLETION_JOB_NAMESPACE");
    if parsedCommand.Some? {
      if a.monitor {
        WatchVerdict(a, compNs, compName, env0, stream, nested);
      } else {
        var pr := ProvisionSpec(a, parsedCommand.value, env0, writes, createOk);
        if pr.passed {
          WatchVerdict(a, compNs, compName, pr.env, stream, nested);
        }
      }
    }
  }

  /** The outer watch's verdict, when it returns one, is the kind of its first
    * deciding event, under the job's log name; in monitor mode a deciding
    * event always ends the watch with that verdict. */
  lemma WatchVerdict(a: Args, compNs: Option<string>, compName: Option<string>,
                     env: map<string, string>, stream: Stream, nested: Stream)
    ensures var w := WatchRun(a, compNs, compName, env, stream, nested);
      w.outcome.Returned? ==>
        && w.outcome.logName == a.logName
        && FirstVerdictIndex(stream.events, a.replicas).Some?
        && var e := stream.events[FirstVerdictIndex(stream.events, a.replicas).value];
           && (w.outcome.verdict == Failed <==> IsFailed(TakeSnapshot(e)))
           && (w.outcome.verdict == Ready <==> a.monitor && !IsFailed(TakeSnapshot(e)))
           && (w.outcome.verdict == Completed <==> !a.monitor && !IsFailed(TakeSnapshot(e)))
    ensures var w := WatchRun(a, compNs, compName, env, stream, nested);
      a.monitor && FirstVerdictIndex(stream.events, a.replicas).Some? ==>
        var e := stream.events[FirstVerdictIndex(stream.events, a.replicas).value];
        w.outcome == Returned(a.logName, if IsFailed(TakeSnapshot(e)) then Failed else Ready)
  {
  }

  /** Job mode, first deciding event Ready: the ready flag is set to "True" and
    * logged right before the completion watch opens; the verdict is Completed
    * even when the completion stream times out without a ready event, and the
    * job exits only if that stream raises first or no completion namespace is set. */
  lemma JobReadyRaisesFlagFirst(a: Args, command: seq<string>, env0: map<string, string>,
                                writes: seq<Option<string>>, createOk: bool, stream: Stream, nested: Stream, i: nat)
    requires !a.monitor
    requires ProvisionSpec(a, command, env0, writes, createOk).passed
    requires FirstVerdictIndex(stream.events, a.replicas) == Some(i)
    requires !IsFailed(TakeSnapshot(stream.events[i]))
    ensures var r := RunSpec(a, Some(command), env0, writes, createOk, stream, nested);
      && r.env == ProvisionSpec(a, command, env0, writes, createOk).env[a.setReady := "True"]
      && (exists k :: 0 <= k < |r.effects| - 1 && r.effects[k] == SetFlag(a.setReady)
            && r.effects[k + 1] == Watch(Getenv(env0, "COMPLETION_JOB_NAMESPACE"), Getenv(env0, "COMPLETION_JOB_NAME")))
      && (r.outcome == Exited <==>
            || Getenv(env0, "COMPLETION_JOB_NAMESPACE").None?
            || (nested.end == Raised && FirstCompletionIndex(nested.events, a.replicas).None?))
      && (r.outcome != Exited ==> r.outcome == Returned(a.logName, Completed))
  {
    var pr := ProvisionSpec(a, command, env0, writes, createOk);
    var compName := Getenv(env0, "COMPLETION_JOB_NAME");
    var compNs := Getenv(env0, "COMPLETION_JOB_NAMESPACE");
    var before := [Watch(Some(a.namespace), Some(a.name))] + Sleeps(EventPauseSeconds, i);
    var c := CompletionRun(a.logName, compNs, compName, a.replicas, nested, pr.env[a.setReady := "True"]);
    ReadyWatch(a, compNs, compName, pr.env, stream, nested, i);
    CompletionOutcome(a.logName, compNs, compName, a.replicas, nested, pr.env[a.setReady := "True"]);
    var r := RunSpec(a, Some(command), env0, writes, createOk, stream, nested);
    var k := |pr.effects| + |before|;
    assert r.effects == pr.effects + (before + [SetFlag(a.setReady)] + c.effects) + Cleanup(a);
    assert r.effects[k] == SetFlag(a.setReady);
    assert r.effects[k + 1] == Watch(compNs, compName);
  }

  /** The outer watch on the job-mode Ready path: the flag write, then the completion watch. */
  lemma ReadyWatch(a: Args, compNs: Option<string>, compName: Option<string>,
                   env: map<string, string>, stream: Stream, nested: Stream, i: nat)
    requires !a.monitor
    requires FirstVerdictIndex(stream.events, a.replicas) == Some(i)
    requires !IsFailed(TakeSnapshot(stream.events[i]))
    ensures var c := CompletionRun(a.logName, compNs, compName, a.replicas, nested, env[a.setReady := "True"]);
      var w := WatchRun(a, compNs, compName, env, stream, nested);
      && w.outcome == c.outcome && w.env == c.env
      && w.effects == [Watch(Some(a.namespace), Some(a.name))] + Sleeps(EventPauseSeconds, i) + [SetFlag(a.setReady)] + c.effects
  {
    var before := [Watch(Some(a.namespace), Some(a.name))] + Sleeps(EventPauseSeconds, i);
    var c := CompletionRun(a.logName, compNs, compName, a.replicas, nested, env[a.setReady := "True"]);
    assert before + ([SetFlag(a.setReady)] + c.effects) == before + [SetFlag(a.setReady)] + c.effects;
  }

  /** The completion watch escapes exactly when no completion namespace is set
    * or its stream raises before a ready event; otherwise it reports Completed.
    * It leaves the environment alone and opens its watch first. */
  lemma CompletionOutcome(logName: string, compNs: Option<string>, compName: Option<string>,
                          replicas: int, nested: Stream, env: map<string, string>)
    ensures var c := CompletionRun(logName, compNs, compName, replicas, nested, env);
      && (c.outcome.Escaped? <==>
            compNs.None? || (nested.end == Raised && FirstCompletionIndex(nested.events, replicas).None?))
      && (!c.outcome.Escaped? ==> c.outcome == Returned(logName, Completed))
      && c.env == env
      && |c.effects| >= 1 && c.effects[0] == Watch(compNs, compName)
  {
  }

  /** Job mode, first deciding event Failed: the verdict is Failed and the
    * ready flag is never set. */
  lemma JobFailedLeavesFlag(a: Args, command: seq<string>, env0: map<string, string>,
                            writes: seq<Option<string>>, createOk: bool, stream: Stream, nested: Stream, i: nat)
    requires !a.monitor
    requires ProvisionSpec(a, command, env0, writes, createOk).passed
    requires FirstVerdictIndex(stream.events, a.replicas) == Some(i)
    requires IsFailed(TakeSnapshot(stream.events[i]))
    ensures var r := RunSpec(a, Some(command), env0, writes, createOk, stream, nested);
      && r.outcome == Returned(a.logName, Failed)
      && r.env == ProvisionSpec(a, command, env0, writes, createOk).env
      && Count(r.effects, Flags) == 0
  {
    var pr := ProvisionSpec(a, command, env0, writes, createOk);
    var compName := Getenv(env0, "COMPLETION_JOB_NAME");
    var compNs := Getenv(env0, "COMPLETION_JOB_NAMESPACE");
    RunCounts(a, command, env0, writes, createOk, stream, nested, Flags);
    ProvisionCounts(a, command, env0, writes, createOk, Flags);
    GateCounts(a, env0, writes, Flags);
    WatchCounts(a, compNs, compName, pr.env, stream, nested, Flags);
    CleanupCounts(a, Flags);
  }

  /** The completion watch reads no further than its first ready event. */
  lemma {:induction false} CompletionIgnoresLaterEvents(logName: string, compNs: Option<string>, compName: Option<string>,
                                                        replicas: int, nested: Stream, nested2: Stream,
                                                        env: map<string, string>, j: nat)
    requires FirstCompletionIndex(nested.events, replicas) == Some(j)
    requires j < |nested2.events| && nested2.events[..j + 1] == nested.events[..j + 1]
    ensures CompletionRun(logName, compNs, compName, replicas, nested2, env)
         == CompletionRun(logName, compNs, compName, replicas, nested, env)
  {
    forall k | 0 <= k <= j ensures nested2.events[k] == nested.events[k] {
      assert nested2.events[..j + 1][k] == nested.events[..j + 1][k];
    }
    assert FirstCompletionIndex(nested2.events, replicas) == Some(j);
  }
}
