# StatefulSet synthesis of the MySQL operator, in Dafny

This project models how the MySQL operator's cluster controller builds the
desired StatefulSet of a `MysqlCluster` (`pkg/mysqlcluster/statefullset.go`).
`syncStatefulSet` hands a mutation closure to a create-or-patch primitive. The
closure does two things to the live StatefulSet:

- it records a Ready condition and a ready-node count on the cluster status,
  read from the StatefulSet's status counters;
- it rewrites the StatefulSet spec from the cluster spec: replica count,
  selector, service name, the pod template and the volume-claim template.

The pod template gets canonical labels and three managed annotations. It gets
the init containers `init-mysql` and `clone-mysql` and the run containers
`mysql`, `helper` and `metrics-exporter`, in that order. It gets three or four
volumes. Each container gets the environment sources and volume mounts of its
role. Fields the controller does not manage are carried over.

Files:

- `wrappers.dfy`: `Option`, and `Result` for Go code that returns or panics.
- `fmt.dfy`: decimal rendering of integers as `%d` prints them, with its parser and round trip.
- `kube.dfy`: the Kubernetes objects involved. Each object keeps its uninterpreted fields in a `rest` map, so that preservation can be stated. The live `StatefulSet` is a class.
- `api.dfy`: the cluster spec and status. The `MysqlCluster` class holds the status that the closure updates.
- `statefulset.dfy`: module `StatefulSetSync`. The closure and every helper of the source file are here.
  - The helpers that reuse or reallocate a slice and overwrite its entries are methods. Each one is written in the order of the Go statements and is proved equal to a ghost function of its inputs.
  - The properties are stated on those ghost functions.
  - The closure is split into `RecordReadiness` (status) and `RewriteSpec` (spec), and `MutateStatefulSet` runs them in the source's order.
- `statefulset_properties.dfy`: properties that relate several runs or inputs. These are idempotence, "this input changes only that output", and the agreement between mounts and volumes.

Collaborators that the file calls but does not define are inputs:

- `getLabels`, `GetNameForResource`, `ensureContainerPorts` and `ensureProbe` are arrow-typed fields of `Collaborators`.
- The port, path and directory constants are fields of `Settings`.
- The image getters and `GetOrcTopologySecret` are fields of `ClusterSpec` that hold the values they return.

The model keeps these behaviours of the code as written:

- The template annotations start from the cluster's pod annotations, not from the template's existing ones (lines 91-97).
- The exporter's port list is built on the mysql container's port list, after the mysql port was merged into it (line 214).
- An init-container list longer than two keeps its extra entries.
- A list with exactly one init container makes the Go code index out of range. The model reports this as a panic (`Result.Panic`). Everything that depends on it states both outcomes.
- The exporter container gets no volume mounts. In Go this is a nil slice; here it is the empty sequence.

## Model

| member | source | states |
|---|---|---|
| `StatefulSetSync.ReadyCondition` | pkg/mysqlcluster/statefullset.go:57-63 | Ready is True exactly when ready replicas equal replicas, otherwise False. Each case has its fixed reason and message. |
| `StatefulSetSync.EvaluatedStatus` | pkg/mysqlcluster/statefullset.go:57-65 | The new cluster status has the Ready condition from the StatefulSet counters and ready nodes equal to ready replicas. Every other condition and status field is kept. |
| `StatefulSetSync.RecordReadiness` | pkg/mysqlcluster/statefullset.go:57-65 | The imperative status update produces exactly `EvaluatedStatus` of the prior cluster status and the live counters. |
| `Api.MysqlCluster.UpdateStatusCondition` | pkg/mysqlcluster/statefullset.go:58-62 | The condition of the given type is replaced; the rest of the status is unchanged. |
| `StatefulSetSync.EnvSourcesFor` | pkg/mysqlcluster/statefullset.go:289-313 | The env-secret source, built by `envFromSecret`, is always first. `clone-mysql` has a second source, naming the init-bucket secret, iff that name is non-empty. `mysql` has a second source with prefix `MYSQL_` on the credentials secret. Every other name has only the first source. |
| `StatefulSetSync.VolumeMountsFor` | pkg/mysqlcluster/statefullset.go:315-357 | `init-mysql` mounts conf and config-map. `clone-mysql` and `mysql` mount conf and data. `helper` mounts conf and data, plus the topology secret iff its name is non-empty. Any other name mounts nothing. |
| `StatefulSetSync.EnsureContainer` | pkg/mysqlcluster/statefullset.go:119-128 | Sets name, image, pull policy, args, env sources and mounts from the role. Ports, resources, both probes and every other field of the input container are preserved. |
| `StatefulSetSync.InitContainersFor` | pkg/mysqlcluster/statefullset.go:130-148 | Panics iff the input has length 1. Empty input gives 2 containers, otherwise the length is kept. Entry 0 is `init-mysql` with args `files-config` and entry 1 is `clone-mysql` with args `clone`, both on the helper image with the cluster's pull policy, the environment sources and volume mounts their names select, and their bases' unmanaged fields. Entries from index 2 on are untouched. |
| `StatefulSetSync.EnsureInitContainersSpec` | pkg/mysqlcluster/statefullset.go:130-148 | The imperative version returns exactly `InitContainersFor`, panic included. |
| `StatefulSetSync.RunContainersFor` | pkg/mysqlcluster/statefullset.go:150-229 | Always 3 containers: `mysql`, `helper`, `metrics-exporter`. Their images, args, pull policy, environment sources, volume mounts, ports and resources are as listed. The four managed probes (mysql liveness 30/5/10 and readiness 5/5/10 exec, helper readiness 5/5/10 HTTP GET, exporter liveness 30/30/120 HTTP GET) come from `ensureProbe` on the base's probe; helper liveness and exporter readiness are kept from the base. Unmanaged fields come from the input's entry at the same position when the input has length 3, otherwise from a zero container. The exporter's ports are built on the mysql container's ports. |
| `StatefulSetSync.EnsureContainersSpec` | pkg/mysqlcluster/statefullset.go:150-229 | The imperative version returns exactly `RunContainersFor`. |
| `StatefulSetSync.EnsureVolume` | pkg/mysqlcluster/statefullset.go:369-374 | The result is the given name and source; nothing of the old volume survives. |
| `StatefulSetSync.DesiredVolumes` | pkg/mysqlcluster/statefullset.go:231-273 | 3 volumes when the topology secret is empty, otherwise 4. In order: `conf` (empty dir), `config-map` (mode 0644), `data` (claim `data`), then `orc-topology-secret` (that secret, mode 0644). Volume names are pairwise distinct. |
| `StatefulSetSync.EnsureVolumes` | pkg/mysqlcluster/statefullset.go:231-273 | The imperative version returns `DesiredVolumes` whatever the input volumes were, so applying it twice equals applying it once. |
| `StatefulSetSync.ClaimTemplatesFor` | pkg/mysqlcluster/statefullset.go:275-287 | At least one entry, and the length is kept when non-empty. Entry 0 is named `data` with the cluster's claim spec and keeps its other fields. Entries from index 1 on are untouched. |
| `StatefulSetSync.EnsureVolumeClaimTemplates` | pkg/mysqlcluster/statefullset.go:275-287 | The imperative version returns exactly `ClaimTemplatesFor`. |
| `StatefulSetSync.TemplateAnnotations` | pkg/mysqlcluster/statefullset.go:91-97 | Keys are the cluster pod annotations plus `config_hash`, `prometheus.io/scrape` and `prometheus.io/port`. Their values are the config hash, `"true"` and the decimal exporter port. Every other cluster annotation keeps its value. |
| `StatefulSetSync.TemplateFor` | pkg/mysqlcluster/statefullset.go:89-109 | Panics iff there is exactly one init container. Otherwise labels come from the label helper and annotations as above. Containers and volumes are as specified. Affinity, node selector and pull secrets are replaced from the cluster pod spec. Other template fields are kept. |
| `StatefulSetSync.EnsureTemplate` | pkg/mysqlcluster/statefullset.go:89-109 | The imperative version returns exactly `TemplateFor`. |
| `StatefulSetSync.WithServiceFields` | pkg/mysqlcluster/statefullset.go:67-72 | Replicas, selector and service name come from the cluster. Template, claim templates and other fields are kept. |
| `StatefulSetSync.Synthesize` | pkg/mysqlcluster/statefullset.go:67-76 | Panics iff there is exactly one init container. Otherwise it is the service fields plus `TemplateFor` and `ClaimTemplatesFor`, and the StatefulSet's other spec fields are kept. |
| `StatefulSetSync.RewriteSpec` | pkg/mysqlcluster/statefullset.go:67-76 | The new spec is `Synthesize` of the old one. On a panic, the replicas, selector and service name are already written and the rest is unchanged. The status is never written. |
| `StatefulSetSync.MutateStatefulSet` | pkg/mysqlcluster/statefullset.go:56-77 | The status is evaluated from the prior counters first, then the spec is rewritten as `Synthesize`. |
| `StatefulSetSync.SyncStatefulSet` | pkg/mysqlcluster/statefullset.go:46-87 | After the mutation, the reported state is failed on an apply error and otherwise the state named by the apply verb, and the apply error is returned unchanged. The live object's status and metadata are untouched; its spec is the synthesis, or only the service fields after a panic, which propagates. |
| `Fmt.FormatInt` | pkg/mysqlcluster/statefullset.go:97 | `%d` rendering: the string is non-empty, starts with `-` iff the number is negative, and is otherwise made of digits. |
| `Fmt.ParseFormatInt` | pkg/mysqlcluster/statefullset.go:97 | Reading back the rendering gives the number. |
| `Fmt.FormatIntInjective` | pkg/mysqlcluster/statefullset.go:210 | Distinct ports give distinct renderings, in the annotation and in the exporter's listen address. |
| `StatefulSetProperties.EnsureContainerIdempotent` | pkg/mysqlcluster/statefullset.go:119-128 | Merging a container twice with the same arguments equals merging once. |
| `StatefulSetProperties.InitContainersIdempotent` | pkg/mysqlcluster/statefullset.go:130-148 | Re-synthesizing synthesized init containers changes nothing. |
| `StatefulSetProperties.RunContainersIdempotent` | pkg/mysqlcluster/statefullset.go:150-229 | Re-synthesizing synthesized run containers changes nothing, provided the port and probe helpers are idempotent. |
| `StatefulSetProperties.ClaimTemplatesIdempotent` | pkg/mysqlcluster/statefullset.go:275-287 | Re-synthesizing synthesized claim templates changes nothing. |
| `StatefulSetProperties.TemplateIdempotent` | pkg/mysqlcluster/statefullset.go:89-109 | Re-synthesizing a synthesized pod template changes nothing. |
| `StatefulSetProperties.SynthesizeIdempotent` | pkg/mysqlcluster/statefullset.go:56-77 | Running the mutation on its own output with the same cluster spec gives the same spec, so the patch is empty. |
| `StatefulSetProperties.ConfigHashOnlyTouchesItsAnnotation` | pkg/mysqlcluster/statefullset.go:95 | A different config hash changes the `config_hash` annotation and nothing else, and it does change the result. |
| `StatefulSetProperties.InitBucketOnlyTouchesCloneEnv` | pkg/mysqlcluster/statefullset.go:296-299 | Changing the init-bucket secret changes only the clone container's env sources. Its mounts and the rest of the spec are unchanged. |
| `StatefulSetProperties.ReplicasOnlyTouchReplicas` | pkg/mysqlcluster/statefullset.go:67 | A new replica count changes the replicas field only. Runtime-set container fields survive verbatim. |
| `StatefulSetProperties.PortAnnotationDeterminesPort` | pkg/mysqlcluster/statefullset.go:97 | Equal `prometheus.io/port` annotations imply equal exporter ports. |
| `StatefulSetProperties.EnvSourcesImportSecretsOnly` | pkg/mysqlcluster/statefullset.go:359-367 | Every environment source of every container refers only to a secret, with no config-map reference. Only the `MYSQL_` credentials source of `mysql` has a prefix; every source that `envFromSecret` builds is unprefixed. |
| `StatefulSetProperties.MountsNameDeclaredVolumes` | pkg/mysqlcluster/statefullset.go:315-357 | For every container name, each mount names a volume that the volume planner declares. Conversely, the helper mounts the topology secret exactly when that volume is declared. |
| `StatefulSetProperties.SynthesizedMountsResolve` | pkg/mysqlcluster/statefullset.go:99-102 | In a synthesized pod template, the mounts of both managed init containers and of all three run containers name declared volumes. |

## Left out

- The create-or-patch primitive (`kapps.CreateOrPatchStatefulSet`) is external network I/O. Its fetch, diff and patch are not modelled; its error and verb are inputs of `SyncStatefulSet`.
- StatefulSetSync.SyncStatefulSet: always runs the mutation. It does not model a primitive that fails before calling the mutation, in which case the cluster status would stay unchanged.
- `getStatusFromKVerb` is not part of this model, so the reported state carries the verb itself. The `glog` call is left out.
- The object identity handed to the primitive (name, labels, owner references, namespace; lines 48-53) is not modelled. It only addresses the object.
- `getLabels`, `getOwnerReferences`, `GetNameForResource`, `ensureContainerPorts`, `ensureProbe`, the image getters, `GetOrcTopologySecret`, the config-hash computation and the port and path constants are defined outside the file. They are inputs with no behaviour assumed. The exception is the idempotence lemmas, which assume that `ensureContainerPorts` and `ensureProbe` are idempotent.
- Api.MysqlCluster.UpdateStatusCondition: the real method is not part of this model. It is modelled as a keyed replacement of the condition; transition timestamps are not modelled.
- Go aliasing is not modelled. This covers the annotation keys written into the cluster's own pod-annotation map (lines 91-97), slice entries overwritten in the caller's backing array (including entry 0 of a one-entry init-container list before the panic), and `append` sharing a backing array. Every value here is fresh.
- A nil map or slice and an empty one are the same value. So the `len(...) == 0` allocation of the annotation map has no observable effect, and the exporter's nil mounts are the empty sequence.
- Replica counts and ports are 32-bit in Go and unbounded here. The synthesis only copies them, so no width matters.
- Kubernetes types keep only the fields the synthesis reads or writes. Probe handlers are kept as data, and the settings of a probe, resource quantities, affinity terms and claim specs are opaque values.
- The unused constant `ConfDPath` is not modelled.
