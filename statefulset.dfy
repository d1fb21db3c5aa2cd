/**
 * The desired-state synthesis of the MySQL cluster's StatefulSet
 * (pkg/mysqlcluster/statefullset.go): the mutation that the create-or-patch
 * primitive runs on the live object, the pod template it rebuilds, and the
 * helpers that fill containers, volumes and the volume-claim template.
 *
 * Each helper that reuses or reallocates a slice and overwrites its entries
 * is a method over sequences written in the order of the Go statements; its
 * postcondition ties it to a ghost function of the same inputs, and the
 * properties of the synthesis are stated on those functions.
 */
module StatefulSetSync {
  import opened Wrappers
  import opened Fmt
  import opened Kube
  import opened Api

  // Volume names and mount paths.
  const ConfVolumeName := "conf"
  const ConfVolumeMountPath := "/etc/mysql"
  const ConfMapVolumeName := "config-map"
  const ConfMapVolumeMountPath := "/mnt/conf"
  const DataVolumeName := "data"
  const DataVolumeMountPath := "/var/lib/mysql"
  const OrcSecretVolumeName := "orc-topology-secret"

  // Container names.
  const ContainerInitName := "init-mysql"
  const ContainerCloneName := "clone-mysql"
  const ContainerHelperName := "helper"
  const ContainerMysqlName := "mysql"
  const ContainerExporterName := "metrics-exporter"

  // Pod template annotation keys.
  const ConfigHashAnnotation := "config_hash"
  const ScrapeAnnotation := "prometheus.io/scrape"
  const PortAnnotation := "prometheus.io/port"

  /** The file mode 0644 (octal) of the config-map and topology-secret volumes. */
  const FileMode := 420

  /** The environment-source prefix of the credentials secret in the mysql container. */
  const MysqlEnvPrefix := "MYSQL_"

  /** The message Go's runtime panics with when the init-container slice has one entry. */
  const InitIndexPanic := "runtime error: index out of range [1] with length 1"

  /** Port, path and directory constants defined in other files of the package. */
  datatype Settings = Settings(
    mysqlPortName: string,
    mysqlPort: int,
    helperXtrabackupPortName: string,
    helperXtrabackupPort: int,
    helperProbePath: string,
    helperProbePort: int,
    exporterPortName: string,
    exporterPort: int,
    exporterPath: string,
    exporterTargetPort: IntOrString,
    orcTopologyDir: string)

  /**
   * Helpers defined outside the file, taken as given functions: the
   * canonical label set (getLabels), resource naming (GetNameForResource),
   * and the port-list and probe merge helpers (ensureContainerPorts,
   * ensureProbe; the three integers are passed in the order of the call sites).
   */
  datatype Collaborators = Collaborators(
    labels: map<string, string> -> map<string, string>,
    nameFor: ResourceKind -> string,
    ensurePorts: (seq<ContainerPort>, ContainerPort) -> seq<ContainerPort>,
    ensureProbe: (Option<Probe>, int, int, int, Handler) -> Option<Probe>)

  /** The factory of one reconciliation: the cluster spec, the config hash and the collaborators. */
  datatype Factory = Factory(spec: ClusterSpec, configHash: string, settings: Settings, env: Collaborators)

  // ---------------------------------------------------------------------
  // Status evaluation
  // ---------------------------------------------------------------------

  /** The Ready condition the mutation records, from the live object's counters. */
  function ReadyCondition(s: StatefulSetStatus): (c: ClusterCondition)
    ensures c.status == ConditionTrue <==> s.readyReplicas == s.replicas
    ensures c.status == ConditionFalse <==> s.readyReplicas != s.replicas
    ensures c.status == ConditionTrue ==> c.reason == "statefulset ready" && c.message == "Cluster is ready."
    ensures c.status != ConditionTrue ==> c.reason == "statefulset not ready" && c.message == "Cluster is not ready."
  {
    if s.readyReplicas == s.replicas then
      ClusterCondition(ConditionTrue, "statefulset ready", "Cluster is ready.")
    else
      ClusterCondition(ConditionFalse, "statefulset not ready", "Cluster is not ready.")
  }

  /** The cluster status after the mutation: the Ready condition and the ready-node count, nothing else. */
  ghost function EvaluatedStatus(cluster: ClusterStatus, s: StatefulSetStatus): (r: ClusterStatus)
    ensures r.readyNodes == s.readyReplicas
    ensures r.conditions.Keys == cluster.conditions.Keys + {ClusterConditionReady}
    ensures r.conditions[ClusterConditionReady] == ReadyCondition(s)
    ensures forall t :: t in cluster.conditions && t != ClusterConditionReady ==> r.conditions[t] == cluster.conditions[t]
    ensures r.rest == cluster.rest
  {
    cluster.(conditions := cluster.conditions[ClusterConditionReady := ReadyCondition(s)], readyNodes := s.readyReplicas)
  }

  // ---------------------------------------------------------------------
  // Container policy: environment sources and volume mounts by name
  // ---------------------------------------------------------------------

  /** An environment source that imports every key of the named secret. */
  function EnvFromSecret(name: string): EnvFromSource {
    EnvFromSource("", None, Some(name))
  }

  /** The credentials secret, imported into the mysql container with the MYSQL_ prefix. */
  function MysqlCredentialsSource(f: Factory): EnvFromSource {
    EnvFromSource(MysqlEnvPrefix, None, Some(f.spec.secretName))
  }

  /** The environment sources of the container with the given name. */
  function EnvSourcesFor(f: Factory, name: string): (ss: seq<EnvFromSource>)
    ensures |ss| >= 1 && ss[0] == EnvFromSecret(f.env.nameFor(EnvSecretResource))
    ensures name == ContainerCloneName ==>
      (|ss| == 2 <==> f.spec.initBucketSecretName != "") &&
      (|ss| == 2 ==> ss[1] == EnvFromSecret(f.spec.initBucketSecretName))
    ensures name == ContainerMysqlName ==> ss == [ss[0], MysqlCredentialsSource(f)]
    ensures name != ContainerCloneName && name != ContainerMysqlName ==> |ss| == 1
    ensures |ss| <= 2
  {
    var ss := [EnvFromSecret(f.env.nameFor(EnvSecretResource))];
    if name == ContainerCloneName then
      if |f.spec.initBucketSecretName| != 0 then ss + [EnvFromSecret(f.spec.initBucketSecretName)] else ss
    else if name == ContainerMysqlName then
      ss + [MysqlCredentialsSource(f)]
    else
      ss
  }

  const ConfMount := VolumeMount(ConfVolumeName, ConfVolumeMountPath)
  const ConfMapMount := VolumeMount(ConfMapVolumeName, ConfMapVolumeMountPath)
  const DataMount := VolumeMount(DataVolumeName, DataVolumeMountPath)

  function OrcMount(f: Factory): VolumeMount {
    VolumeMount(OrcSecretVolumeName, f.settings.orcTopologyDir)
  }

  /** The volume mounts of the container with the given name. */
  function VolumeMountsFor(f: Factory, name: string): (ms: seq<VolumeMount>)
    ensures name == ContainerInitName ==> ms == [ConfMount, ConfMapMount]
    ensures name == ContainerCloneName || name == ContainerMysqlName ==> ms == [ConfMount, DataMount]
    ensures name == ContainerHelperName ==>
      2 <= |ms| <= 3 && ms[..2] == [ConfMount, DataMount] &&
      (|ms| == 3 <==> f.spec.orcTopologySecret != "") && (|ms| == 3 ==> ms[2] == OrcMount(f))
    ensures name !in {ContainerInitName, ContainerCloneName, ContainerMysqlName, ContainerHelperName} ==> ms == []
  {
    var common := [ConfMount, DataMount];
    var helperMounts := if |f.spec.orcTopologySecret| != 0 then common + [OrcMount(f)] else common;
    if name == ContainerInitName then [ConfMount, ConfMapMount]
    else if name == ContainerCloneName then common
    else if name == ContainerMysqlName then common
    else if name == ContainerHelperName then helperMounts
    else []
  }

  // ---------------------------------------------------------------------
  // Containers
  // ---------------------------------------------------------------------

  /** The fields of a container that ensureContainer leaves alone. */
  predicate SameUnmanaged(a: Container, b: Container) {
    a.ports == b.ports && a.resources == b.resources &&
    a.livenessProbe == b.livenessProbe && a.readinessProbe == b.readinessProbe &&
    a.rest == b.rest
  }

  /**
   * Overwrites the six managed fields of a container and keeps the rest, so
   * that fields the runtime filled in survive.
   */
  function EnsureContainer(f: Factory, c: Container, name: string, image: string, args: seq<string>): (r: Container)
    ensures r.name == name && r.image == image && r.args == args
    ensures r.imagePullPolicy == f.spec.podSpec.imagePullPolicy
    ensures r.envFrom == EnvSourcesFor(f, name) && r.volumeMounts == VolumeMountsFor(f, name)
    ensures SameUnmanaged(c, r)
  {
    c.(name := name, image := image, imagePullPolicy := f.spec.podSpec.imagePullPolicy, args := args,
       envFrom := EnvSourcesFor(f, name), volumeMounts := VolumeMountsFor(f, name))
  }

  /** What the init containers are built on: the live ones, or two zero containers when there are none. */
  function InitBase(cs: seq<Container>): seq<Container> {
    if |cs| == 0 then [ZeroContainer, ZeroContainer] else cs
  }

  /** The init containers after ensureInitContainersSpec, or the panic of a one-entry input. */
  ghost function InitContainersFor(f: Factory, cs: seq<Container>): (r: Result<seq<Container>>)
    ensures r.Panic? <==> |cs| == 1
    ensures r.Ok? ==> |r.value| == (if |cs| == 0 then 2 else |cs|)
    ensures r.Ok? ==>
      r.value[0].name == ContainerInitName && r.value[0].args == ["files-config"] &&
      r.value[0].image == f.spec.helperImage && SameUnmanaged(InitBase(cs)[0], r.value[0]) &&
      r.value[1].name == ContainerCloneName && r.value[1].args == ["clone"] &&
      r.value[1].image == f.spec.helperImage && SameUnmanaged(InitBase(cs)[1], r.value[1])
    ensures r.Ok? ==> forall i :: 0 <= i < 2 ==>
      r.value[i].imagePullPolicy == f.spec.podSpec.imagePullPolicy &&
      r.value[i].envFrom == EnvSourcesFor(f, r.value[i].name) &&
      r.value[i].volumeMounts == VolumeMountsFor(f, r.value[i].name)
    ensures r.Ok? ==> forall i :: 2 <= i < |cs| ==> r.value[i] == cs[i]
  {
    if |cs| == 1 then Panic(InitIndexPanic)
    else
      var base := InitBase(cs);
      Ok(base[0 := EnsureContainer(f, base[0], ContainerInitName, f.spec.helperImage, ["files-config"])]
             [1 := EnsureContainer(f, base[1], ContainerCloneName, f.spec.helperImage, ["clone"])])
  }

  /** ensureInitContainersSpec: an empty list becomes two zero containers; entries 0 and 1 are overwritten. */
  method EnsureInitContainersSpec(f: Factory, cs: seq<Container>) returns (r: Result<seq<Container>>)
    ensures r == InitContainersFor(f, cs)
  {
    var ins := cs;
    if |ins| == 0 {
      ins := [ZeroContainer, ZeroContainer];
    }
    ins := ins[0 := EnsureContainer(f, ins[0], ContainerInitName, f.spec.helperImage, ["files-config"])];
    if |ins| < 2 {
      return Panic(InitIndexPanic);
    }
    ins := ins[1 := EnsureContainer(f, ins[1], ContainerCloneName, f.spec.helperImage, ["clone"])];
    return Ok(ins);
  }

  const MysqlLivenessCommand := ["mysqladmin", "--defaults-file=/etc/mysql/client.cnf", "ping"]
  const MysqlReadinessCommand := ["mysql", "--defaults-file=/etc/mysql/client.cnf", "-e", "SELECT 1"]

  /** The exporter's command line: listen address and telemetry path. */
  function ExporterArgs(s: Settings): seq<string> {
    ["--web.listen-address=0.0.0.0:" + FormatInt(s.exporterPort), "--web.telemetry-path=" + s.exporterPath]
  }

  /** What the run containers are built on: the live ones when there are exactly three, else zero containers. */
  function RunBase(cs: seq<Container>): (b: seq<Container>)
    ensures |b| == 3
  {
    if |cs| == 3 then cs else [ZeroContainer, ZeroContainer, ZeroContainer]
  }

  /** The mysql container built on base. */
  ghost function MysqlContainer(f: Factory, base: Container): Container {
    var c := EnsureContainer(f, base, ContainerMysqlName, f.spec.mysqlImage, []);
    c.(ports := f.env.ensurePorts(c.ports, ContainerPort(f.settings.mysqlPortName, f.settings.mysqlPort)),
       resources := f.spec.podSpec.resources,
       livenessProbe := f.env.ensureProbe(c.livenessProbe, 30, 5, 10, ExecAction(MysqlLivenessCommand)),
       readinessProbe := f.env.ensureProbe(c.readinessProbe, 5, 5, 10, ExecAction(MysqlReadinessCommand)))
  }

  /** The helper container built on base. */
  ghost function HelperContainer(f: Factory, base: Container): Container {
    var c := EnsureContainer(f, base, ContainerHelperName, f.spec.helperImage, ["config-and-serve"]);
    c.(ports := f.env.ensurePorts(c.ports, ContainerPort(f.settings.helperXtrabackupPortName, f.settings.helperXtrabackupPort)),
       readinessProbe := f.env.ensureProbe(c.readinessProbe, 5, 5, 10,
         HttpGetAction(f.settings.helperProbePath, IntVal(f.settings.helperProbePort), "HTTP")))
  }

  /** The exporter container built on base; its port list is built on mysqlPorts, the mysql container's. */
  ghost function ExporterContainer(f: Factory, base: Container, mysqlPorts: seq<ContainerPort>): Container {
    var c := EnsureContainer(f, base, ContainerExporterName, f.spec.metricsExporterImage, ExporterArgs(f.settings));
    c.(ports := f.env.ensurePorts(mysqlPorts, ContainerPort(f.settings.exporterPortName, f.settings.exporterPort)),
       livenessProbe := f.env.ensureProbe(c.livenessProbe, 30, 30, 120,
         HttpGetAction(f.settings.exporterPath, f.settings.exporterTargetPort, "HTTP")))
  }

  /** The run containers after ensureContainersSpec. */
  ghost function RunContainersFor(f: Factory, cs: seq<Container>): (r: seq<Container>)
    ensures |r| == 3
    ensures r[0].name == ContainerMysqlName && r[1].name == ContainerHelperName && r[2].name == ContainerExporterName
    ensures r[0].image == f.spec.mysqlImage && r[1].image == f.spec.helperImage && r[2].image == f.spec.metricsExporterImage
    ensures r[0].args == [] && r[1].args == ["config-and-serve"] && r[2].args == ExporterArgs(f.settings)
    ensures forall i :: 0 <= i < 3 ==>
      r[i].imagePullPolicy == f.spec.podSpec.imagePullPolicy &&
      r[i].envFrom == EnvSourcesFor(f, r[i].name) && r[i].volumeMounts == VolumeMountsFor(f, r[i].name) &&
      r[i].rest == RunBase(cs)[i].rest
    ensures r[0].ports == f.env.ensurePorts(RunBase(cs)[0].ports, ContainerPort(f.settings.mysqlPortName, f.settings.mysqlPort))
    ensures r[1].ports == f.env.ensurePorts(RunBase(cs)[1].ports,
      ContainerPort(f.settings.helperXtrabackupPortName, f.settings.helperXtrabackupPort))
    ensures r[2].ports == f.env.ensurePorts(r[0].ports, ContainerPort(f.settings.exporterPortName, f.settings.exporterPort))
    ensures r[0].resources == f.spec.podSpec.resources
    ensures r[1].resources == RunBase(cs)[1].resources && r[2].resources == RunBase(cs)[2].resources
    ensures r[0].livenessProbe == f.env.ensureProbe(RunBase(cs)[0].livenessProbe, 30, 5, 10, ExecAction(MysqlLivenessCommand))
    ensures r[0].readinessProbe == f.env.ensureProbe(RunBase(cs)[0].readinessProbe, 5, 5, 10, ExecAction(MysqlReadinessCommand))
    ensures r[1].readinessProbe == f.env.ensureProbe(RunBase(cs)[1].readinessProbe, 5, 5, 10,
      HttpGetAction(f.settings.helperProbePath, IntVal(f.settings.helperProbePort), "HTTP"))
    ensures r[2].livenessProbe == f.env.ensureProbe(RunBase(cs)[2].livenessProbe, 30, 30, 120,
      HttpGetAction(f.settings.exporterPath, f.settings.exporterTargetPort, "HTTP"))
    ensures r[1].livenessProbe == RunBase(cs)[1].livenessProbe && r[2].readinessProbe == RunBase(cs)[2].readinessProbe
  {
    var base := RunBase(cs);
    var mysql := MysqlContainer(f, base[0]);
    [mysql, HelperContainer(f, base[1]), ExporterContainer(f, base[2], mysql.ports)]
  }

  /** ensureContainersSpec: exactly three containers, reused by position when there were three. */
  method EnsureContainersSpec(f: Factory, cs: seq<Container>) returns (r: seq<Container>)
    ensures r == RunContainersFor(f, cs)
  {
    var ins := cs;
    var noContainers := 3;
    if |ins| != noContainers {
      ins := [ZeroContainer, ZeroContainer, ZeroContainer];
    }

    var mysql := EnsureContainer(f, ins[0], ContainerMysqlName, f.spec.mysqlImage, []);
    mysql := mysql.(ports := f.env.ensurePorts(mysql.ports, ContainerPort(f.settings.mysqlPortName, f.settings.mysqlPort)));
    mysql := mysql.(resources := f.spec.podSpec.resources);
    mysql := mysql.(livenessProbe := f.env.ensureProbe(mysql.livenessProbe, 30, 5, 10, ExecAction(MysqlLivenessCommand)));
    mysql := mysql.(readinessProbe := f.env.ensureProbe(mysql.readinessProbe, 5, 5, 10, ExecAction(MysqlReadinessCommand)));
    ins := ins[0 := mysql];

    var helper := EnsureContainer(f, ins[1], ContainerHelperName, f.spec.helperImage, ["config-and-serve"]);
    helper := helper.(ports := f.env.ensurePorts(helper.ports,
      ContainerPort(f.settings.helperXtrabackupPortName, f.settings.helperXtrabackupPort)));
    helper := helper.(readinessProbe := f.env.ensureProbe(helper.readinessProbe, 5, 5, 10,
      HttpGetAction(f.settings.helperProbePath, IntVal(f.settings.helperProbePort), "HTTP")));
    ins := ins[1 := helper];

    var exporter := EnsureContainer(f, ins[2], ContainerExporterName, f.spec.metricsExporterImage, ExporterArgs(f.settings));
    exporter := exporter.(ports := f.env.ensurePorts(mysql.ports,
      ContainerPort(f.settings.exporterPortName, f.settings.exporterPort)));
    exporter := exporter.(livenessProbe := f.env.ensureProbe(exporter.livenessProbe, 30, 30, 120,
      HttpGetAction(f.settings.exporterPath, f.settings.exporterTargetPort, "HTTP")));
    ins := ins[2 := exporter];

    r := ins;
  }

  // ---------------------------------------------------------------------
  // Volumes and the volume-claim template
  // ---------------------------------------------------------------------

  /** ensureVolume: core.Volume has only a name and a source, so nothing of the old volume survives. */
  function EnsureVolume(v: Volume, name: string, source: VolumeSource): (r: Volume)
    ensures r == Volume(name, source)
  {
    v.(name := name, source := source)
  }

  /** The names of a list of volumes. */
  function VolumeNames(vs: seq<Volume>): set<string> {
    set v | v in vs :: v.name
  }

  /** The volumes ensureVolumes produces: three fixed ones, then the topology secret when one is configured. */
  ghost function DesiredVolumes(f: Factory): (vs: seq<Volume>)
    ensures |vs| == (if f.spec.orcTopologySecret == "" then 3 else 4)
    ensures vs[0] == Volume(ConfVolumeName, EmptyDir)
    ensures vs[1] == Volume(ConfMapVolumeName, ConfigMapSource(f.env.nameFor(ConfigMapResource), Some(FileMode)))
    ensures vs[2] == Volume(DataVolumeName, PersistentVolumeClaimSource(DataVolumeName))
    ensures |vs| == 4 ==> vs[3] == Volume(OrcSecretVolumeName, SecretSource(f.spec.orcTopologySecret, Some(FileMode)))
    ensures forall i, j :: 0 <= i < j < |vs| ==> vs[i].name != vs[j].name
  {
    var fixed := [Volume(ConfVolumeName, EmptyDir),
                  Volume(ConfMapVolumeName, ConfigMapSource(f.env.nameFor(ConfigMapResource), Some(FileMode))),
                  Volume(DataVolumeName, PersistentVolumeClaimSource(DataVolumeName))];
    if f.spec.orcTopologySecret == "" then fixed
    else fixed + [Volume(OrcSecretVolumeName, SecretSource(f.spec.orcTopologySecret, Some(FileMode)))]
  }

  /** ensureVolumes: reallocates unless the count already matches, then overwrites every entry. */
  method EnsureVolumes(f: Factory, vs: seq<Volume>) returns (r: seq<Volume>)
    ensures r == DesiredVolumes(f)
  {
    var noVolumes := 3;
    var orcVolume := false;
    if |f.spec.orcTopologySecret| != 0 {
      noVolumes := noVolumes + 1;
      orcVolume := true;
    }

    var ins := vs;
    if |ins| != noVolumes {
      ins := seq(noVolumes, _ => ZeroVolume);
    }

    ins := ins[0 := EnsureVolume(ins[0], ConfVolumeName, EmptyDir)];
    ins := ins[1 := EnsureVolume(ins[1], ConfMapVolumeName,
      ConfigMapSource(f.env.nameFor(ConfigMapResource), Some(FileMode)))];
    ins := ins[2 := EnsureVolume(ins[2], DataVolumeName, PersistentVolumeClaimSource(DataVolumeName))];
    if orcVolume {
      ins := ins[3 := EnsureVolume(ins[3], OrcSecretVolumeName,
        SecretSource(f.spec.orcTopologySecret, Some(FileMode)))];
    }
    r := ins;
  }

  /** The volume-claim templates after ensureVolumeClaimTemplates. */
  ghost function ClaimTemplatesFor(f: Factory, cs: seq<PersistentVolumeClaim>): (r: seq<PersistentVolumeClaim>)
    ensures |r| == (if |cs| == 0 then 1 else |cs|)
    ensures r[0].name == DataVolumeName && r[0].spec == f.spec.volumeClaimSpec
    ensures r[0].rest == (if |cs| == 0 then ZeroClaim.rest else cs[0].rest)
    ensures forall i :: 1 <= i < |cs| ==> r[i] == cs[i]
  {
    var base := if |cs| == 0 then [ZeroClaim] else cs;
    base[0 := base[0].(name := DataVolumeName, spec := f.spec.volumeClaimSpec)]
  }

  /** ensureVolumeClaimTemplates: creates the slot if absent, else rewrites the first entry in place. */
  method EnsureVolumeClaimTemplates(f: Factory, cs: seq<PersistentVolumeClaim>) returns (r: seq<PersistentVolumeClaim>)
    ensures r == ClaimTemplatesFor(f, cs)
  {
    var ins := cs;
    if |ins| == 0 {
      ins := [ZeroClaim];
    }
    var data := ins[0];
    data := data.(name := DataVolumeName);
    data := data.(spec := f.spec.volumeClaimSpec);
    ins := ins[0 := data];
    r := ins;
  }

  // ---------------------------------------------------------------------
  // Pod template
  // ---------------------------------------------------------------------

  /** The pod template annotations: the cluster's pod annotations plus the three managed keys. */
  function TemplateAnnotations(f: Factory): (a: map<string, string>)
    ensures a.Keys == f.spec.podSpec.annotations.Keys + {ConfigHashAnnotation, ScrapeAnnotation, PortAnnotation}
    ensures a[ConfigHashAnnotation] == f.configHash
    ensures a[ScrapeAnnotation] == "true"
    ensures a[PortAnnotation] == FormatInt(f.settings.exporterPort)
    ensures forall k :: k in f.spec.podSpec.annotations && k !in {ConfigHashAnnotation, ScrapeAnnotation, PortAnnotation} ==>
      a[k] == f.spec.podSpec.annotations[k]
  {
    f.spec.podSpec.annotations[ConfigHashAnnotation := f.configHash][ScrapeAnnotation := "true"]
      [PortAnnotation := FormatInt(f.settings.exporterPort)]
  }

  /** The pod template after ensureTemplate, or the panic of its init containers. */
  ghost function TemplateFor(f: Factory, t: PodTemplateSpec): (r: Result<PodTemplateSpec>)
    ensures r.Panic? <==> |t.spec.initContainers| == 1
    ensures r.Ok? ==>
      r.value.meta.labels == f.env.labels(f.spec.podSpec.labels) &&
      r.value.meta.annotations == TemplateAnnotations(f) &&
      r.value.meta.rest == t.meta.rest
    ensures r.Ok? ==>
      Ok(r.value.spec.initContainers) == InitContainersFor(f, t.spec.initContainers) &&
      r.value.spec.containers == RunContainersFor(f, t.spec.containers) &&
      r.value.spec.volumes == DesiredVolumes(f)
    ensures r.Ok? ==>
      r.value.spec.affinity == Some(f.spec.podSpec.affinity) &&
      r.value.spec.nodeSelector == f.spec.podSpec.nodeSelector &&
      r.value.spec.imagePullSecrets == f.spec.podSpec.imagePullSecrets &&
      r.value.spec.rest == t.spec.rest
  {
    match InitContainersFor(f, t.spec.initContainers)
    case Panic(reason) => Panic(reason)
    case Ok(inits) =>
      Ok(PodTemplateSpec(
        t.meta.(labels := f.env.labels(f.spec.podSpec.labels), annotations := TemplateAnnotations(f)),
        t.spec.(initContainers := inits,
                containers := RunContainersFor(f, t.spec.containers),
                volumes := DesiredVolumes(f),
                affinity := Some(f.spec.podSpec.affinity),
                nodeSelector := f.spec.podSpec.nodeSelector,
                imagePullSecrets := f.spec.podSpec.imagePullSecrets)))
  }

  /** ensureTemplate, statement by statement. */
  method EnsureTemplate(f: Factory, t: PodTemplateSpec) returns (r: Result<PodTemplateSpec>)
    ensures r == TemplateFor(f, t)
  {
    var meta := t.meta.(labels := f.env.labels(f.spec.podSpec.labels));
    var annotations := f.spec.podSpec.annotations;
    if |annotations| == 0 {
      // Go allocates a map here because the cluster's map may be nil; as a value it is already empty.
      annotations := map[];
    }
    annotations := annotations[ConfigHashAnnotation := f.configHash];
    annotations := annotations[ScrapeAnnotation := "true"];
    annotations := annotations[PortAnnotation := FormatInt(f.settings.exporterPort)];
    meta := meta.(annotations := annotations);

    var inits := EnsureInitContainersSpec(f, t.spec.initContainers);
    if inits.Panic? {
      return Panic(inits.reason);
    }
    var containers := EnsureContainersSpec(f, t.spec.containers);
    var volumes := EnsureVolumes(f, t.spec.volumes);

    var spec := t.spec.(initContainers := inits.value, containers := containers, volumes := volumes);
    spec := spec.(affinity := Some(f.spec.podSpec.affinity));
    spec := spec.(nodeSelector := f.spec.podSpec.nodeSelector);
    spec := spec.(imagePullSecrets := f.spec.podSpec.imagePullSecrets);
    r := Ok(PodTemplateSpec(meta, spec));
  }

  // ---------------------------------------------------------------------
  // The StatefulSet spec and the mutation closure
  // ---------------------------------------------------------------------

  /** The spec after the closure's first three assignments: replicas, selector and service name. */
  ghost function WithServiceFields(f: Factory, s: StatefulSetSpec): (r: StatefulSetSpec)
    ensures r.replicas == Some(f.spec.replicas)
    ensures r.selector == Some(LabelSelector(f.env.labels(map[]), []))
    ensures r.serviceName == f.env.nameFor(HeadlessSVCResource)
    ensures r.template == s.template && r.volumeClaimTemplates == s.volumeClaimTemplates && r.rest == s.rest
  {
    s.(replicas := Some(f.spec.replicas),
       selector := Some(LabelSelector(f.env.labels(map[]), [])),
       serviceName := f.env.nameFor(HeadlessSVCResource))
  }

  /** The StatefulSet spec the closure produces from the live one. */
  ghost function Synthesize(f: Factory, s: StatefulSetSpec): (r: Result<StatefulSetSpec>)
    ensures r.Panic? <==> |s.template.spec.initContainers| == 1
    ensures r.Ok? ==>
      r.value.replicas == Some(f.spec.replicas) &&
      r.value.selector == Some(LabelSelector(f.env.labels(map[]), [])) &&
      r.value.serviceName == f.env.nameFor(HeadlessSVCResource)
    ensures r.Ok? ==> Ok(r.value.template) == TemplateFor(f, s.template)
    ensures r.Ok? ==> r.value.volumeClaimTemplates == ClaimTemplatesFor(f, s.volumeClaimTemplates)
    ensures r.Ok? ==> r.value.rest == s.rest
  {
    var h := WithServiceFields(f, s);
    match TemplateFor(f, h.template)
    case Panic(reason) => Panic(reason)
    case Ok(t) => Ok(h.(template := t, volumeClaimTemplates := ClaimTemplatesFor(f, h.volumeClaimTemplates)))
  }

  /**
   * The first half of the mutation closure: the Ready condition and the
   * ready-node count, read from the live object's status before the spec is
   * touched.
   */
  method RecordReadiness(cluster: MysqlCluster, status: StatefulSetStatus)
    modifies cluster
    ensures cluster.status == EvaluatedStatus(old(cluster.status), status)
  {
    if status.readyReplicas == status.replicas {
      cluster.UpdateStatusCondition(ClusterConditionReady, ConditionTrue, "statefulset ready", "Cluster is ready.");
    } else {
      cluster.UpdateStatusCondition(ClusterConditionReady, ConditionFalse, "statefulset not ready", "Cluster is not ready.");
    }
    cluster.status := cluster.status.(readyNodes := status.readyReplicas);
  }

  /**
   * The second half of the mutation closure: the spec rewrite. `panicked`
   * reports a run-time panic of the Go code; the fields assigned before it
   * keep their new values.
   */
  method RewriteSpec(f: Factory, sts: StatefulSet) returns (panicked: bool)
    modifies sts
    ensures sts.status == old(sts.status) && sts.meta == old(sts.meta)
    ensures panicked <==> Synthesize(f, old(sts.spec)).Panic?
    ensures !panicked ==> Ok(sts.spec) == Synthesize(f, old(sts.spec))
    ensures panicked ==> sts.spec == WithServiceFields(f, old(sts.spec))
  {
    ghost var live := sts.spec;
    sts.spec := sts.spec.(replicas := Some(f.spec.replicas));
    sts.spec := sts.spec.(selector := Some(LabelSelector(f.env.labels(map[]), [])));
    sts.spec := sts.spec.(serviceName := f.env.nameFor(HeadlessSVCResource));
    assert sts.spec == WithServiceFields(f, live);

    var template := EnsureTemplate(f, sts.spec.template);
    if template.Panic? {
      return true;
    }
    sts.spec := sts.spec.(template := template.value);
    var claims := EnsureVolumeClaimTemplates(f, sts.spec.volumeClaimTemplates);
    sts.spec := sts.spec.(volumeClaimTemplates := claims);
    return false;
  }

  /** The closure passed to the create-or-patch primitive: readiness first, then the spec. */
  method MutateStatefulSet(f: Factory, cluster: MysqlCluster, sts: StatefulSet) returns (panicked: bool)
    modifies cluster, sts
    ensures cluster.status == EvaluatedStatus(old(cluster.status), old(sts.status))
    ensures sts.status == old(sts.status) && sts.meta == old(sts.meta)
    ensures panicked <==> Synthesize(f, old(sts.spec)).Panic?
    ensures !panicked ==> Ok(sts.spec) == Synthesize(f, old(sts.spec))
    ensures panicked ==> sts.spec == WithServiceFields(f, old(sts.spec))
  {
    RecordReadiness(cluster, sts.status);
    panicked := RewriteSpec(f, sts);
  }

  /** What syncStatefulSet reports: failure on an apply error, else the state named by the apply verb. */
  datatype SyncState = StatusFailed | StatusFromVerb(verb: string)

  /**
   * syncStatefulSet, with the create-or-patch primitive's fetch, diff and
   * patch left out: the mutation runs on the live object, and the primitive's
   * error and verb are inputs. The error is handed back to the caller
   * unchanged, as the named result of the Go function.
   */
  method SyncStatefulSet(f: Factory, cluster: MysqlCluster, live: StatefulSet, applyErr: Option<string>, verb: string)
    returns (state: Result<SyncState>, err: Option<string>)
    modifies cluster, live
    ensures cluster.status == EvaluatedStatus(old(cluster.status), old(live.status))
    ensures live.status == old(live.status) && live.meta == old(live.meta)
    ensures state.Panic? <==> Synthesize(f, old(live.spec)).Panic?
    ensures state.Ok? ==> Ok(live.spec) == Synthesize(f, old(live.spec))
    ensures state.Panic? ==> live.spec == WithServiceFields(f, old(live.spec))
    ensures state.Ok? ==> err == applyErr
    ensures state.Ok? ==> state.value == (if applyErr.Some? then StatusFailed else StatusFromVerb(verb))
  {
    var panicked := MutateStatefulSet(f, cluster, live);
    if panicked {
      return Panic(InitIndexPanic), None;
    }
    err := applyErr;
    if err.Some? {
      return Ok(StatusFailed), err;
    }
    return Ok(StatusFromVerb(verb)), err;
  }
}
