/** The apps/v1 Deployment object a job submits, and the consistency rules
  * every object built by the jobs satisfies. */
module Manifest {

  datatype Resources = Resources(requests: map<string, string>, limits: map<string, string>)

  datatype Container = Container(
    name: string,
    image: string,
    command: seq<string>,
    resources: Resources)

  datatype Toleration = Toleration(key: string, operator: string, value: string, effect: string)

  datatype PodSpec = PodSpec(
    containers: seq<Container>,
    nodeSelector: map<string, string>,
    tolerations: seq<Toleration>)

  datatype PodTemplate = PodTemplate(labels: map<string, string>, spec: PodSpec)

  datatype DeploymentSpec = DeploymentSpec(
    replicas: int,
    progressDeadlineSeconds: int,
    matchLabels: map<string, string>,
    template: PodTemplate)

  datatype Deployment = Deployment(
    apiVersion: string,
    kind: string,
    name: string,
    spec: DeploymentSpec)

  /** The label every job puts on its pods and selects them by. */
  function AppLabels(name: string): map<string, string> {
    map["app" := name]
  }

  /** Consistency of a Deployment object: the selector picks exactly the
    * template's labels, which carry the object's own name; each container
    * requests exactly what it is limited to; and each toleration tolerates the
    * node-selector entry it names, with the NoSchedule taint effect. */
  ghost predicate WellFormed(d: Deployment) {
    && d.apiVersion == "apps/v1"
    && d.kind == "Deployment"
    && d.spec.matchLabels == d.spec.template.labels
    && "app" in d.spec.template.labels && d.spec.template.labels["app"] == d.name
    && (forall c :: c in d.spec.template.spec.containers ==>
          c.resources.requests == c.resources.limits)
    && (forall t :: t in d.spec.template.spec.tolerations ==>
          && t.key in d.spec.template.spec.nodeSelector
          && d.spec.template.spec.nodeSelector[t.key] == t.value
          && t.operator == "Equal"
          && t.effect == "NoSchedule")
  }

  /** The single-container Deployment a job creates. */
  function Build(
    name: string, replicas: int, progressDeadlineSeconds: int,
    containerName: string, image: string, command: seq<string>,
    cpuLimit: string, memoryLimit: string,
    nodeSelectorKey: string, nodeSelectorValue: string): (d: Deployment)
    ensures WellFormed(d)
    ensures d.name == name && d.spec.matchLabels == AppLabels(name)
    ensures d.spec.replicas == replicas && d.spec.progressDeadlineSeconds == progressDeadlineSeconds
    ensures |d.spec.template.spec.containers| == 1
    ensures var c := d.spec.template.spec.containers[0];
      && c.name == containerName && c.image == image && c.command == command
      && c.resources.limits == map["cpu" := cpuLimit, "memory" := memoryLimit]
    ensures d.spec.template.spec.nodeSelector == map[nodeSelectorKey := nodeSelectorValue]
    ensures |d.spec.template.spec.tolerations| == 1
  {
    var limits := map["cpu" := cpuLimit, "memory" := memoryLimit];
    Deployment(
      "apps/v1",
      "Deployment",
      name,
      DeploymentSpec(
        replicas,
        progressDeadlineSeconds,
        AppLabels(name),
        PodTemplate(
          AppLabels(name),
          PodSpec(
            [Container(containerName, image, command, Resources(limits, limits))],
            map[nodeSelectorKey := nodeSelectorValue],
            [Toleration(nodeSelectorKey, "Equal", nodeSelectorValue, "NoSchedule")]))))
  }
}
