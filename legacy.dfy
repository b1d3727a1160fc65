/** The NatsStreamingCluster declaration as the two earlier generations of
    the operator read it (pkg/apis/streaming/v1alpha1/types.go), and the
    server settings both of their commands carry. */
module ClusterV1alpha1 {
  import opened Kube
  import opened ServerArgs

  datatype ClusterSpec = ClusterSpec(
    size: int32,
    image: string,
    natsService: string,
    volume: seq<Volume>,
    volumeMounts: seq<VolumeMount>)

  /** `deleting` stands for a non-nil DeletionTimestamp. */
  datatype Cluster = Cluster(
    uid: string,
    name: string,
    namespace: string,
    spec: ClusterSpec,
    deleting: bool)

  /** A clustered file store in the directory `store`, joined to the
      cluster's NATS service, bootstrapping or not. */
  function LegacyOptions(o: Cluster, bootstrap: bool): Options {
    Initial(ServerBinary).(
      store := Some("file"),
      dir := Some("store"),
      clustered := true,
      clusterId := Some(o.name),
      natsServer := Some(NatsUrl(o.spec.natsService)),
      bootstrap := bootstrap)
  }

  /** The pods listed for the cluster, running or not. */
  function ListedFor(pods: seq<Pod>, o: Cluster): seq<Pod> {
    Selected(pods, o.namespace, o.name)
  }
}
