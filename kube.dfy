/**
 * The part of the Kubernetes core/v1 and apps/v1 object model that the
 * StatefulSet synthesis reads or writes. Each object keeps the fields the
 * synthesis never interprets in a `rest` map (field name to value), so that
 * "this field survives" can be stated. A Go nil slice and an empty slice are
 * both the empty sequence; a nil pointer is None.
 */
module Kube {
  import opened Wrappers

  /** Fields of an object that the model does not interpret. */
  type Rest = map<string, string>

  /** Scheduling constraints, compute resources and claim specs are copied whole, never inspected. */
  type Affinity = Rest
  type ResourceRequirements = Rest
  type PersistentVolumeClaimSpec = Rest

  /** core.EnvFromSource: an environment source, a config map or a secret, with an optional name prefix. */
  datatype EnvFromSource = EnvFromSource(prefix: string, configMapRef: Option<string>, secretRef: Option<string>)

  /** core.VolumeMount: which volume is mounted where. */
  datatype VolumeMount = VolumeMount(name: string, mountPath: string)

  /** core.ContainerPort. */
  datatype ContainerPort = ContainerPort(name: string, containerPort: int)

  /** intstr.IntOrString: a port given by number or by name. */
  datatype IntOrString = IntVal(intVal: int) | StrVal(strVal: string)

  /** core.Handler: what a probe runs. */
  datatype Handler =
    | ExecAction(command: seq<string>)
    | HttpGetAction(path: string, port: IntOrString, scheme: string)

  /** core.Probe; its settings are only ever produced by the probe helper, so they stay opaque. */
  datatype Probe = Probe(fields: Rest)

  /** core.Container, with the fields the synthesis writes and the remainder. */
  datatype Container = Container(
    name: string,
    image: string,
    imagePullPolicy: string,
    args: seq<string>,
    envFrom: seq<EnvFromSource>,
    volumeMounts: seq<VolumeMount>,
    ports: seq<ContainerPort>,
    resources: ResourceRequirements,
    livenessProbe: Option<Probe>,
    readinessProbe: Option<Probe>,
    rest: Rest)

  /** The zero value of core.Container, as make([]core.Container, n) fills a slice. */
  const ZeroContainer := Container("", "", "", [], [], [], [], map[], None, None, map[])

  /** core.VolumeSource: at most one source is set; NoSource is the zero value. */
  datatype VolumeSource =
    | NoSource
    | EmptyDir
    | ConfigMapSource(name: string, defaultMode: Option<int>)
    | PersistentVolumeClaimSource(claimName: string)
    | SecretSource(secretName: string, defaultMode: Option<int>)
    | OtherSource(fields: Rest)

  /** core.Volume has exactly these two fields. */
  datatype Volume = Volume(name: string, source: VolumeSource)

  const ZeroVolume := Volume("", NoSource)

  /** core.PersistentVolumeClaim: its name, its spec, and the rest (other metadata, status). */
  datatype PersistentVolumeClaim = PersistentVolumeClaim(name: string, spec: PersistentVolumeClaimSpec, rest: Rest)

  const ZeroClaim := PersistentVolumeClaim("", map[], map[])

  /** The metadata of a pod template. */
  datatype ObjectMeta = ObjectMeta(labels: map<string, string>, annotations: map<string, string>, rest: Rest)

  /** core.PodSpec. */
  datatype PodSpec = PodSpec(
    initContainers: seq<Container>,
    containers: seq<Container>,
    volumes: seq<Volume>,
    affinity: Option<Affinity>,
    nodeSelector: map<string, string>,
    imagePullSecrets: seq<string>,
    rest: Rest)

  /** core.PodTemplateSpec. */
  datatype PodTemplateSpec = PodTemplateSpec(meta: ObjectMeta, spec: PodSpec)

  /** metav1.LabelSelector. */
  datatype LabelSelector = LabelSelector(matchLabels: map<string, string>, matchExpressions: seq<Rest>)

  /** apps.StatefulSetSpec. */
  datatype StatefulSetSpec = StatefulSetSpec(
    replicas: Option<int>,
    selector: Option<LabelSelector>,
    serviceName: string,
    template: PodTemplateSpec,
    volumeClaimTemplates: seq<PersistentVolumeClaim>,
    rest: Rest)

  /** apps.StatefulSetStatus: the counters the runtime reports. */
  datatype StatefulSetStatus = StatefulSetStatus(replicas: int, readyReplicas: int, rest: Rest)

  /** core.ConditionStatus. */
  datatype ConditionStatus = ConditionTrue | ConditionFalse | ConditionUnknown

  /** apps.StatefulSet: the live object that the create-or-patch primitive hands to the mutation. */
  class StatefulSet {
    var meta: Rest
    var spec: StatefulSetSpec
    var status: StatefulSetStatus

    constructor (meta: Rest, spec: StatefulSetSpec, status: StatefulSetStatus)
      ensures this.meta == meta && this.spec == spec && this.status == status
    {
      this.meta := meta;
      this.spec := spec;
      this.status := status;
    }
  }
}
