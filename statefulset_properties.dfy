/**
 * Properties of the StatefulSet synthesis that relate several operations or
 * several runs: re-synthesis changes nothing, each input field changes only
 * the output fields derived from it, and every volume a container mounts is
 * declared by the pod.
 */
module StatefulSetProperties {
  import opened Wrappers
  import opened Fmt
  import opened Kube
  import opened Api
  import opened StatefulSetSync

  /** ensureContainerPorts applied twice with the same port gives what it gave once. */
  ghost predicate PortsIdempotent(env: Collaborators) {
    forall ps, p :: env.ensurePorts(env.ensurePorts(ps, p), p) == env.ensurePorts(ps, p)
  }

  /** ensureProbe applied twice with the same settings gives what it gave once. */
  ghost predicate ProbesIdempotent(env: Collaborators) {
    forall pr, a, b, c, h :: env.ensureProbe(env.ensureProbe(pr, a, b, c, h), a, b, c, h) == env.ensureProbe(pr, a, b, c, h)
  }

  // ---------------------------------------------------------------------
  // Idempotence
  // ---------------------------------------------------------------------

  /** Merging a container twice with the same arguments gives what merging it once gave. */
  lemma EnsureContainerIdempotent(f: Factory, c: Container, name: string, image: string, args: seq<string>)
    ensures EnsureContainer(f, EnsureContainer(f, c, name, image, args), name, image, args)
         == EnsureContainer(f, c, name, image, args)
  {
  }

  /** Once the init containers are synthesized, synthesizing them again changes nothing. */
  lemma InitContainersIdempotent(f: Factory, cs: seq<Container>)
    requires |cs| != 1
    ensures InitContainersFor(f, cs).Ok?
    ensures InitContainersFor(f, InitContainersFor(f, cs).value) == InitContainersFor(f, cs)
  {
    var r := InitContainersFor(f, cs).value;
    var base := InitBase(cs);
    EnsureContainerIdempotent(f, base[0], ContainerInitName, f.spec.helperImage, ["files-config"]);
    EnsureContainerIdempotent(f, base[1], ContainerCloneName, f.spec.helperImage, ["clone"]);
    assert r[0 := r[0]][1 := r[1]] == r;
  }

  /** Once the run containers are synthesized, synthesizing them again changes nothing. */
  lemma RunContainersIdempotent(f: Factory, cs: seq<Container>)
    requires PortsIdempotent(f.env) && ProbesIdempotent(f.env)
    ensures RunContainersFor(f, RunContainersFor(f, cs)) == RunContainersFor(f, cs)
  {
  }

  /** Once the volume-claim templates are synthesized, synthesizing them again changes nothing. */
  lemma ClaimTemplatesIdempotent(f: Factory, cs: seq<PersistentVolumeClaim>)
    ensures ClaimTemplatesFor(f, ClaimTemplatesFor(f, cs)) == ClaimTemplatesFor(f, cs)
  {
  }

  /** Once the pod template is synthesized, synthesizing it again changes nothing. */
  lemma TemplateIdempotent(f: Factory, t: PodTemplateSpec)
    requires PortsIdempotent(f.env) && ProbesIdempotent(f.env)
    requires |t.spec.initContainers| != 1
    ensures TemplateFor(f, t).Ok?
    ensures TemplateFor(f, TemplateFor(f, t).value) == TemplateFor(f, t)
  {
    InitContainersIdempotent(f, t.spec.initContainers);
    RunContainersIdempotent(f, t.spec.containers);
  }

  /**
   * Re-synthesis is a no-op: running the mutation on its own output, with
   * the same cluster spec, yields the same StatefulSet spec, so the
   * create-or-patch primitive sees no diff.
   */
  lemma SynthesizeIdempotent(f: Factory, s: StatefulSetSpec)
    requires PortsIdempotent(f.env) && ProbesIdempotent(f.env)
    requires |s.template.spec.initContainers| != 1
    ensures Synthesize(f, s).Ok?
    ensures Synthesize(f, Synthesize(f, s).value) == Synthesize(f, s)
  {
    TemplateIdempotent(f, s.template);
    ClaimTemplatesIdempotent(f, s.volumeClaimTemplates);
  }

  // ---------------------------------------------------------------------
  // Each input changes only what is derived from it
  // ---------------------------------------------------------------------

  /** The spec s with the config_hash annotation of its pod template set to h. */
  function WithConfigHash(s: StatefulSetSpec, h: string): StatefulSetSpec {
    s.(template := s.template.(meta := s.template.meta.(annotations := s.template.meta.annotations[ConfigHashAnnotation := h])))
  }

  /** A new config hash changes the config_hash annotation and nothing else. */
  lemma ConfigHashOnlyTouchesItsAnnotation(f: Factory, s: StatefulSetSpec, h: string)
    requires |s.template.spec.initContainers| != 1
    ensures Synthesize(f, s).Ok? && Synthesize(f.(configHash := h), s).Ok?
    ensures Synthesize(f.(configHash := h), s).value == WithConfigHash(Synthesize(f, s).value, h)
    ensures h != f.configHash ==> Synthesize(f.(configHash := h), s) != Synthesize(f, s)
  {
    var g := f.(configHash := h);
    assert TemplateAnnotations(g) == TemplateAnnotations(f)[ConfigHashAnnotation := h];
    assert RunContainersFor(g, s.template.spec.containers) == RunContainersFor(f, s.template.spec.containers);
  }

  /** The spec s with init container i replaced by c. */
  function WithInitContainer(s: StatefulSetSpec, i: nat, c: Container): StatefulSetSpec
    requires i < |s.template.spec.initContainers|
  {
    s.(template := s.template.(spec := s.template.spec.(initContainers := s.template.spec.initContainers[i := c])))
  }

  /**
   * Setting the init-bucket secret name changes only the environment sources
   * of the clone container; its volume mounts and everything else stay.
   */
  lemma InitBucketOnlyTouchesCloneEnv(f: Factory, s: StatefulSetSpec, bucket: string)
    requires |s.template.spec.initContainers| != 1
    ensures Synthesize(f, s).Ok?
    ensures |Synthesize(f, s).value.template.spec.initContainers| >= 2
    ensures var r := Synthesize(f, s).value;
      var g := f.(spec := f.spec.(initBucketSecretName := bucket));
      Synthesize(g, s) == Ok(WithInitContainer(r, 1,
        r.template.spec.initContainers[1].(envFrom := EnvSourcesFor(g, ContainerCloneName))))
  {
    var g := f.(spec := f.spec.(initBucketSecretName := bucket));
    var cs := s.template.spec.initContainers;
    assert RunContainersFor(g, s.template.spec.containers) == RunContainersFor(f, s.template.spec.containers);
    var rf := InitContainersFor(f, cs).value;
    var rg := InitContainersFor(g, cs).value;
    assert rg == rf[1 := rf[1].(envFrom := EnvSourcesFor(g, ContainerCloneName))];
  }

  /** A new replica count changes the replica field and nothing else. */
  lemma ReplicasOnlyTouchReplicas(f: Factory, s: StatefulSetSpec, n: int)
    requires |s.template.spec.initContainers| != 1
    ensures Synthesize(f, s).Ok?
    ensures Synthesize(f.(spec := f.spec.(replicas := n)), s) == Ok(Synthesize(f, s).value.(replicas := Some(n)))
  {
  }

  /** The prometheus.io/port annotation determines the exporter port. */
  lemma PortAnnotationDeterminesPort(f: Factory, g: Factory)
    ensures TemplateAnnotations(f)[PortAnnotation] == TemplateAnnotations(g)[PortAnnotation]
        ==> f.settings.exporterPort == g.settings.exporterPort
  {
    FormatIntInjective(f.settings.exporterPort, g.settings.exporterPort);
  }

  /**
   * Every environment source of every container imports a secret, never a
   * config map, and only the mysql credentials source carries a prefix.
   */
  lemma EnvSourcesImportSecretsOnly(f: Factory, name: string)
    ensures forall e :: e in EnvSourcesFor(f, name) ==>
      e.configMapRef.None? && e.secretRef.Some? &&
      (e.prefix != "" ==> name == ContainerMysqlName && e == MysqlCredentialsSource(f))
  {
  }

  // ---------------------------------------------------------------------
  // Mounts and volumes agree
  // ---------------------------------------------------------------------

  /** Every volume the container mounts is declared in vs. */
  predicate MountsResolve(c: Container, vs: seq<Volume>) {
    forall m :: m in c.volumeMounts ==> m.name in VolumeNames(vs)
  }

  /**
   * Whatever the container's name, each of its mounts names a volume that
   * ensureVolumes declares; in particular the helper mounts the topology
   * secret exactly when that volume exists.
   */
  lemma MountsNameDeclaredVolumes(f: Factory, name: string)
    ensures forall m :: m in VolumeMountsFor(f, name) ==> m.name in VolumeNames(DesiredVolumes(f))
    ensures name == ContainerHelperName ==>
      (OrcMount(f) in VolumeMountsFor(f, name) <==> OrcSecretVolumeName in VolumeNames(DesiredVolumes(f)))
  {
    var vs := DesiredVolumes(f);
    if OrcSecretVolumeName in VolumeNames(vs) {
      var v :| v in vs && v.name == OrcSecretVolumeName;
      assert |vs| == 4;
    }
  }

  /** In a synthesized pod template, every managed container's mounts resolve to declared volumes. */
  lemma SynthesizedMountsResolve(f: Factory, s: StatefulSetSpec)
    requires |s.template.spec.initContainers| != 1
    ensures Synthesize(f, s).Ok?
    ensures var p := Synthesize(f, s).value.template.spec;
      |p.initContainers| >= 2 && |p.containers| == 3 &&
      MountsResolve(p.initContainers[0], p.volumes) && MountsResolve(p.initContainers[1], p.volumes) &&
      forall i :: 0 <= i < 3 ==> MountsResolve(p.containers[i], p.volumes)
  {
  }
}
