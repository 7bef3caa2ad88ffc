/** The flat status record taken from every watched Deployment event, and the
  * two tests the watch loops apply to it (the apps/v1 Deployment
  * progress-condition convention). */
module RolloutStatus {
  import opened Wrappers

  /** The condition reason the cluster reports once the progress deadline has passed. */
  const ProgressDeadlineExceeded := "ProgressDeadlineExceeded"

  /** One entry of `status.conditions`; every field may be absent. */
  datatype Condition = Condition(
    conditionType: Option<string>,
    status: Option<string>,
    reason: Option<string>,
    message: Option<string>)

  /** The part of a watched Deployment (`event["object"]`) the jobs look at.
    * An absent and an empty `conditions` list behave alike, so both are `[]`. */
  datatype WatchedDeployment = WatchedDeployment(
    name: Option<string>,
    availableReplicas: Option<int>,
    conditions: seq<Condition>)

  /** The `status` dictionary built for each event. */
  datatype Snapshot = Snapshot(
    name: Option<string>,
    availableReplicas: Option<int>,
    message: Option<string>,
    reason: Option<string>,
    status: Option<string>,
    conditionType: Option<string>)

  /** The terminal verdicts a job can report. */
  datatype Verdict = Ready | Failed | Completed {
    /** The status string handed back to the driver. */
    function Label(): (s: string)
      ensures s == "Failed" <==> this == Failed
      ensures s == "Ready" <==> this == Ready
    {
      match this
      case Ready => "Ready"
      case Failed => "Failed"
      case Completed => "Completed"
    }
  }

  /** Builds the snapshot with Python's `x if x else None`: an empty name and an
    * available count of 0 become None, and the condition fields come from the
    * first condition only. */
  function TakeSnapshot(d: WatchedDeployment): (s: Snapshot)
    ensures |d.conditions| == 0 ==>
      s.conditionType.None? && s.status.None? && s.reason.None? && s.message.None?
    ensures |d.conditions| > 0 ==>
      && s.conditionType == d.conditions[0].conditionType
      && s.status == d.conditions[0].status
      && s.reason == d.conditions[0].reason
      && s.message == d.conditions[0].message
    ensures s.availableReplicas == (if d.availableReplicas == Some(0) then None else d.availableReplicas)
    ensures s.availableReplicas != Some(0)
  {
    var first: Option<Condition> := if |d.conditions| > 0 then Some(d.conditions[0]) else None;
    Snapshot(
      if d.name == Some("") then None else d.name,
      if d.availableReplicas == Some(0) then None else d.availableReplicas,
      if first.Some? then first.value.message else None,
      if first.Some? then first.value.reason else None,
      if first.Some? then first.value.status else None,
      if first.Some? then first.value.conditionType else None)
  }

  /** The rollout has failed: condition status "False" for an exceeded progress deadline. */
  predicate IsFailed(s: Snapshot) {
    s.status == Some("False") && s.reason == Some(ProgressDeadlineExceeded)
  }

  /** The rollout is ready: every desired replica is available and the condition holds. */
  predicate IsReady(s: Snapshot, replicas: int) {
    s.availableReplicas == Some(replicas) && s.status == Some("True")
  }

  /** The outer watch loop's decision for one event: Failed is tested first, then
    * Ready; None means the loop sleeps and waits for the next event. */
  function Classify(s: Snapshot, replicas: int): (r: Option<Verdict>)
    ensures r == Some(Failed) <==> IsFailed(s)
    ensures r == Some(Ready) <==> IsReady(s, replicas)
    ensures r.None? <==> !IsFailed(s) && !IsReady(s, replicas)
  {
    if IsFailed(s) then Some(Failed)
    else if IsReady(s, replicas) then Some(Ready)
    else None
  }

  /** A desired count of 0 is never reported Ready: an available count of 0 is
    * stored as None, which compares unequal to 0. */
  lemma ZeroReplicasNeverReady(d: WatchedDeployment)
    ensures !IsReady(TakeSnapshot(d), 0)
  {
  }

  /** An exceeded progress deadline is Failed whatever the replica counts. */
  lemma DeadlineFailsRegardlessOfReplicas(d: WatchedDeployment, replicas: int)
    requires |d.conditions| > 0
    requires d.conditions[0].status == Some("False")
    requires d.conditions[0].reason == Some(ProgressDeadlineExceeded)
    ensures Classify(TakeSnapshot(d), replicas) == Some(Failed)
  {
  }

  /** Conditions after the first never influence the verdict. */
  lemma OnlyFirstConditionCounts(d: WatchedDeployment, c: Condition, rest: seq<Condition>, replicas: int)
    requires d.conditions == [c] + rest
    ensures Classify(TakeSnapshot(d), replicas) == Classify(TakeSnapshot(d.(conditions := [c])), replicas)
  {
  }
}
