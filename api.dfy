/**
 * The MysqlCluster custom resource, as far as the StatefulSet synthesis reads
 * its spec and writes its status.
 */
module Api {
  import opened Kube

  /** The kinds of object whose names GetNameForResource derives from the cluster. */
  datatype ResourceKind = HeadlessSVCResource | ConfigMapResource | EnvSecretResource

  /** The pod-level settings of the cluster spec. */
  datatype ClusterPodSpec = ClusterPodSpec(
    labels: map<string, string>,
    annotations: map<string, string>,
    affinity: Affinity,
    nodeSelector: map<string, string>,
    imagePullSecrets: seq<string>,
    imagePullPolicy: string,
    resources: ResourceRequirements)

  /**
   * The cluster spec. The image getters (GetMysqlImage, GetHelperImage,
   * GetMetricsExporterImage) and GetOrcTopologySecret are pure functions of the
   * spec defined elsewhere; the fields hold the values they return.
   */
  datatype ClusterSpec = ClusterSpec(
    replicas: int,
    secretName: string,
    initBucketSecretName: string,
    orcTopologySecret: string,
    mysqlImage: string,
    helperImage: string,
    metricsExporterImage: string,
    podSpec: ClusterPodSpec,
    volumeClaimSpec: PersistentVolumeClaimSpec)

  datatype ClusterConditionType = ClusterConditionReady | OtherClusterCondition(name: string)

  datatype ClusterCondition = ClusterCondition(status: ConditionStatus, reason: string, message: string)

  datatype ClusterStatus = ClusterStatus(
    conditions: map<ClusterConditionType, ClusterCondition>,
    readyNodes: int,
    rest: Rest)

  /** The cluster object whose status the synthesis updates. */
  class MysqlCluster {
    var status: ClusterStatus

    constructor (status: ClusterStatus)
      ensures this.status == status
    {
      this.status := status;
    }

    /** Records the condition of the given type, replacing an earlier one of that type. */
    method UpdateStatusCondition(condType: ClusterConditionType, condStatus: ConditionStatus, reason: string, message: string)
      modifies this
      ensures status == old(status).(conditions := old(status.conditions)[condType := ClusterCondition(condStatus, reason, message)])
    {
      status := status.(conditions := status.conditions[condType := ClusterCondition(condStatus, reason, message)]);
    }
  }
}
