/** The current generation of the operator (internal/operator/controller.go):
    the command line and pod it builds for a NATS Streaming cluster, the
    decision it takes on each notification, the cache of clusters it has
    seen, and the loops that create and delete pods through the API. */
module OperatorController {
  import opened Decimal
  import opened Kube
  import opened ServerArgs

  /** `Spec.Config`: clustering, storage and diagnostics settings. */
  datatype ServerConfig = ServerConfig(
    debug: bool,
    trace: bool,
    raftLogging: bool,
    storeDir: string,
    ftGroup: string,
    clustered: bool)

  datatype PodTemplate = PodTemplate(meta: ObjectMeta, spec: PodSpec)

  datatype ClusterSpec = ClusterSpec(
    size: int32,
    image: string,
    natsService: string,
    storeType: string,
    config: Option<ServerConfig>,
    configFile: string,
    podTemplate: Option<PodTemplate>)

  /** A NatsStreamingCluster declaration; `deleting` stands for a non-nil DeletionTimestamp. */
  datatype Cluster = Cluster(
    uid: string,
    name: string,
    namespace: string,
    spec: ClusterSpec,
    deleting: bool)

  const MonitoringPort: nat := 8222
  const ContainerName := "stan"

  /** Go's `%q` on a name that needs no escaping. */
  function Quote(s: string): string {
    "\"" + s + "\""
  }

  predicate IsSql(o: Cluster) {
    o.spec.storeType == "SQL"
  }

  predicate IsFileStore(o: Cluster) {
    o.spec.storeType != "SQL" && o.spec.storeType != "MEMORY"
  }

  predicate FtMode(o: Cluster) {
    o.spec.config.Some? && o.spec.config.value.ftGroup != ""
  }

  predicate IsClustered(o: Cluster) {
    o.spec.config.Some? && (o.spec.size > 1 || o.spec.config.value.clustered)
  }

  predicate HasStoreDir(o: Cluster) {
    o.spec.config.Some? && o.spec.config.value.storeDir != ""
  }

  // ---------------------------------------------------------------------
  // Command synthesis

  function BaseArgs(o: Cluster): seq<string> {
    [ServerBinary,
     "-cluster_id", o.name,
     "-nats_server", NatsUrl(o.spec.natsService),
     "-m", NatToString(MonitoringPort)]
  }

  function ClusteringArgs(o: Cluster, podName: string): seq<string> {
    if IsClustered(o) && !FtMode(o) then ["-clustered", NodeIdPrefix + Quote(podName)] else []
  }

  function DirArgs(o: Cluster, podName: string): seq<string> {
    if HasStoreDir(o) then
      var dir := o.spec.config.value.storeDir;
      if FtMode(o) then ["-dir", dir + "/" + o.name + "-1", FtGroupPrefix + o.spec.config.value.ftGroup]
      else ["-dir", dir + "/" + podName, "--cluster_log_path", dir + "/raft/" + podName]
    else ["-dir", "store"]
  }

  function StoreArgs(o: Cluster, podName: string): seq<string> {
    if o.spec.storeType == "SQL" then ["-store", "SQL"]
    else if o.spec.storeType == "MEMORY" then ["-store", "MEMORY"]
    else ["-store", "file"] + ClusteringArgs(o, podName) + DirArgs(o, podName)
  }

  /** Position of a diagnostic flag in the fixed order `-SD`, `-SV`, `--cluster_raft_logging`. */
  function DiagRank(flag: string): nat {
    if flag == "-SD" then 0 else if flag == "-SV" then 1 else 2
  }

  /** The diagnostic flags: each present exactly when its setting is on, in the fixed order. */
  function DiagArgs(config: Option<ServerConfig>): (r: seq<string>)
    ensures "-SD" in r <==> config.Some? && config.value.debug
    ensures "-SV" in r <==> config.Some? && config.value.trace
    ensures "--cluster_raft_logging" in r <==> config.Some? && config.value.raftLogging
    ensures forall a :: a in r ==> a in ["-SD", "-SV", "--cluster_raft_logging"]
    ensures forall i, j :: 0 <= i < j < |r| ==> DiagRank(r[i]) < DiagRank(r[j])
  {
    if config.None? then []
    else WhenOn(config.value.debug, "-SD") + WhenOn(config.value.trace, "-SV")
         + WhenOn(config.value.raftLogging, "--cluster_raft_logging")
  }

  function WhenOn(on: bool, flag: string): seq<string> {
    if on then [flag] else []
  }

  function ConfigFileArgs(o: Cluster): seq<string> {
    if o.spec.configFile != "" then ["-sc", o.spec.configFile] else []
  }

  /** `stanContainerCmd`: the command of a pod named `podName`. */
  function StanContainerCmd(o: Cluster, podName: string): seq<string> {
    BaseArgs(o) + StoreArgs(o, podName) + DiagArgs(o.spec.config) + ConfigFileArgs(o)
  }

  /** `stanContainerBootstrapCmd`: the same command, plus the bootstrap flag unless Size is 1. */
  function StanContainerBootstrapCmd(o: Cluster, podName: string): seq<string> {
    var cmd := StanContainerCmd(o, podName);
    if o.spec.size == 1 then cmd else cmd + ["-cluster_bootstrap"]
  }

  // ---------------------------------------------------------------------
  // What the command is meant to configure

  function StoreName(o: Cluster): string {
    if o.spec.storeType == "SQL" then "SQL" else if o.spec.storeType == "MEMORY" then "MEMORY" else "file"
  }

  /** Raft clustering applies: file store, clustered, and not paired for fault tolerance. */
  predicate RaftClustered(o: Cluster) {
    IsFileStore(o) && IsClustered(o) && !FtMode(o)
  }

  function IntendedDir(o: Cluster, podName: string): Option<string> {
    if !IsFileStore(o) then None
    else if !HasStoreDir(o) then Some("store")
    else if FtMode(o) then Some(o.spec.config.value.storeDir + "/" + PodName(o.name, 1))
    else Some(o.spec.config.value.storeDir + "/" + podName)
  }

  function IntendedLogPath(o: Cluster, podName: string): Option<string> {
    if IsFileStore(o) && HasStoreDir(o) && !FtMode(o) then Some(o.spec.config.value.storeDir + "/raft/" + podName)
    else None
  }

  function IntendedFtGroup(o: Cluster): Option<string> {
    if IsFileStore(o) && HasStoreDir(o) && FtMode(o) then Some(o.spec.config.value.ftGroup) else None
  }

  function IntendedNodeId(o: Cluster, podName: string): Option<string> {
    if RaftClustered(o) then Some(Quote(podName)) else None
  }

  function IntendedConfigFile(o: Cluster): Option<string> {
    if o.spec.configFile != "" then Some(o.spec.configFile) else None
  }

  /** The server settings a pod named `podName` is meant to run with. */
  function IntendedOptions(o: Cluster, podName: string, bootstrap: bool): Options {
    var config := o.spec.config;
    Options(
      binary := ServerBinary,
      clusterId := Some(o.name),
      natsServer := Some(NatsUrl(o.spec.natsService)),
      monitorPort := Some(NatToString(MonitoringPort)),
      store := Some(StoreName(o)),
      dir := IntendedDir(o, podName),
      clusterLogPath := IntendedLogPath(o, podName),
      configFile := IntendedConfigFile(o),
      nodeId := IntendedNodeId(o, podName),
      ftGroup := IntendedFtGroup(o),
      clustered := RaftClustered(o),
      bootstrap := bootstrap && o.spec.size != 1,
      debug := config.Some? && config.value.debug,
      trace := config.Some? && config.value.trace,
      raftLogging := config.Some? && config.value.raftLogging)
  }

  // ---------------------------------------------------------------------
  // Reading the commands back

  lemma ParseBaseArgs(o: Cluster)
    ensures ParseFrom(BaseArgs(o)[1..], Initial(ServerBinary))
         == Some(Initial(ServerBinary).(clusterId := Some(o.name),
                                        natsServer := Some(NatsUrl(o.spec.natsService)),
                                        monitorPort := Some(NatToString(MonitoringPort))))
  {
    var s0 := Initial(ServerBinary);
    var p1 := ["-cluster_id", o.name];
    var p2 := ["-nats_server", NatsUrl(o.spec.natsService)];
    var p3 := ["-m", NatToString(MonitoringPort)];
    assert BaseArgs(o)[1..] == p1 + (p2 + p3);
    ParsePair("-cluster_id", o.name, s0);
    var s1 := s0.(clusterId := Some(o.name));
    ParsePair("-nats_server", NatsUrl(o.spec.natsService), s1);
    var s2 := s1.(natsServer := Some(NatsUrl(o.spec.natsService)));
    ParsePair("-m", NatToString(MonitoringPort), s2);
    ParseFromConcat(p2, p3, s1, s2);
    ParseFromConcat(p1, p2 + p3, s0, s1);
  }

  predicate StoreUnset(st: Options) {
    st.store.None? && st.dir.None? && st.clusterLogPath.None? && st.nodeId.None? && st.ftGroup.None? && !st.clustered
  }

  lemma ParseClusteringArgs(o: Cluster, podName: string, st: Options)
    requires st.nodeId.None? && !st.clustered
    ensures ParseFrom(ClusteringArgs(o, podName), st)
         == Some(if IsClustered(o) && !FtMode(o) then st.(clustered := true, nodeId := Some(Quote(podName))) else st)
  {
    if IsClustered(o) && !FtMode(o) {
      var id := NodeIdPrefix + Quote(podName);
      assert ClusteringArgs(o, podName) == ["-clustered"] + [id];
      ParseSwitch("-clustered", st);
      ParseEquals(NodeIdPrefix, Quote(podName), st.(clustered := true), NodeId);
      ParseFromConcat(["-clustered"], [id], st, st.(clustered := true));
    }
  }

  /** FT mode: the data directory of pod 1 and the FT group. */
  lemma ParseFtDirArgs(o: Cluster, podName: string, st: Options)
    requires st.dir.None? && st.ftGroup.None?
    requires HasStoreDir(o) && FtMode(o)
    ensures ParseFrom(DirArgs(o, podName), st)
         == Some(st.(dir := Some(o.spec.config.value.storeDir + "/" + PodName(o.name, 1)),
                     ftGroup := Some(o.spec.config.value.ftGroup)))
  {
    var d := o.spec.config.value.storeDir + "/" + o.name + "-1";
    var g := o.spec.config.value.ftGroup;
    FirstPodName(o.name);
    assert d == o.spec.config.value.storeDir + "/" + PodName(o.name, 1);
    assert DirArgs(o, podName) == ["-dir", d] + [FtGroupPrefix + g];
    ParsePair("-dir", d, st);
    ParseEquals(FtGroupPrefix, g, st.(dir := Some(d)), FtGroup);
    ParseFromConcat(["-dir", d], [FtGroupPrefix + g], st, st.(dir := Some(d)));
  }

  /** Raft clustering with a store directory: per-pod data and log directories. */
  lemma ParseRaftDirArgs(o: Cluster, podName: string, st: Options)
    requires st.dir.None? && st.clusterLogPath.None?
    requires HasStoreDir(o) && !FtMode(o)
    ensures ParseFrom(DirArgs(o, podName), st)
         == Some(st.(dir := Some(o.spec.config.value.storeDir + "/" + podName),
                     clusterLogPath := Some(o.spec.config.value.storeDir + "/raft/" + podName)))
  {
    var d := o.spec.config.value.storeDir + "/" + podName;
    var l := o.spec.config.value.storeDir + "/raft/" + podName;
    assert DirArgs(o, podName) == ["-dir", d] + ["--cluster_log_path", l];
    ParsePair("-dir", d, st);
    ParsePair("--cluster_log_path", l, st.(dir := Some(d)));
    ParseFromConcat(["-dir", d], ["--cluster_log_path", l], st, st.(dir := Some(d)));
  }

  lemma ParseDirArgs(o: Cluster, podName: string, st: Options)
    requires st.dir.None? && st.clusterLogPath.None? && st.ftGroup.None?
    requires IsFileStore(o)
    ensures ParseFrom(DirArgs(o, podName), st)
         == Some(st.(dir := IntendedDir(o, podName), clusterLogPath := IntendedLogPath(o, podName),
                     ftGroup := IntendedFtGroup(o)))
  {
    if HasStoreDir(o) && FtMode(o) {
      ParseFtDirArgs(o, podName, st);
    } else if HasStoreDir(o) {
      ParseRaftDirArgs(o, podName, st);
    } else {
      ParsePair("-dir", "store", st);
    }
  }

  lemma ParseStoreArgs(o: Cluster, podName: string, st: Options)
    requires StoreUnset(st)
    ensures ParseFrom(StoreArgs(o, podName), st)
         == Some(st.(store := Some(StoreName(o)), dir := IntendedDir(o, podName),
                     clusterLogPath := IntendedLogPath(o, podName), nodeId := IntendedNodeId(o, podName),
                     ftGroup := IntendedFtGroup(o), clustered := RaftClustered(o)))
  {
    if IsFileStore(o) {
      var s1 := st.(store := Some("file"));
      ParsePair("-store", "file", st);
      var c := ClusteringArgs(o, podName);
      var d := DirArgs(o, podName);
      ParseClusteringArgs(o, podName, s1);
      var s2 := if IsClustered(o) && !FtMode(o) then s1.(clustered := true, nodeId := Some(Quote(podName))) else s1;
      ParseDirArgs(o, podName, s2);
      assert StoreArgs(o, podName) == ["-store", "file"] + (c + d);
      ParseFromConcat(c, d, s1, s2);
      ParseFromConcat(["-store", "file"], c + d, st, s1);
    } else {
      ParsePair("-store", StoreName(o), st);
    }
  }

  /** A switch that is given only when `on` holds. */
  lemma ParseOptionalSwitch(on: bool, flag: string, st: Options)
    requires SeparateFlag(flag).None? && SwitchOf(flag).Some? && !IsOn(st, SwitchOf(flag).value)
    ensures ParseFrom(WhenOn(on, flag), st) == Some(if on then TurnOn(st, SwitchOf(flag).value) else st)
  {
    if on {
      ParseSwitch(flag, st);
    }
  }

  lemma DiagArgsSplit(c: ServerConfig)
    ensures DiagArgs(Some(c))
         == WhenOn(c.debug, "-SD") + (WhenOn(c.trace, "-SV") + WhenOn(c.raftLogging, "--cluster_raft_logging"))
  {
    assert WhenOn(c.debug, "-SD") + WhenOn(c.trace, "-SV") + WhenOn(c.raftLogging, "--cluster_raft_logging")
        == WhenOn(c.debug, "-SD") + (WhenOn(c.trace, "-SV") + WhenOn(c.raftLogging, "--cluster_raft_logging"));
  }

  lemma ParseDiagArgs(config: Option<ServerConfig>, st: Options)
    requires !st.debug && !st.trace && !st.raftLogging
    ensures ParseFrom(DiagArgs(config), st)
         == Some(st.(debug := config.Some? && config.value.debug,
                     trace := config.Some? && config.value.trace,
                     raftLogging := config.Some? && config.value.raftLogging))
  {
    if config.Some? {
      var c := config.value;
      var a, b, r := WhenOn(c.debug, "-SD"), WhenOn(c.trace, "-SV"), WhenOn(c.raftLogging, "--cluster_raft_logging");
      var s1 := st.(debug := c.debug);
      var s2 := s1.(trace := c.trace);
      ParseOptionalSwitch(c.debug, "-SD", st);
      ParseOptionalSwitch(c.trace, "-SV", s1);
      ParseOptionalSwitch(c.raftLogging, "--cluster_raft_logging", s2);
      DiagArgsSplit(c);
      ParseFromConcat(b, r, s1, s2);
      ParseFromConcat(a, b + r, st, s1);
    }
  }

  lemma ParseConfigFileArgs(o: Cluster, st: Options)
    requires st.configFile.None?
    ensures ParseFrom(ConfigFileArgs(o), st) == Some(st.(configFile := IntendedConfigFile(o)))
  {
    if o.spec.configFile != "" {
      ParsePair("-sc", o.spec.configFile, st);
    }
  }

  lemma DropHead(b: seq<string>, s: seq<string>, d: seq<string>, c: seq<string>)
    requires |b| >= 1
    ensures (b + s + d + c)[0] == b[0]
    ensures (b + s + d + c)[1..] == b[1..] + (s + (d + c))
  {
    assert b + s + d + c == [b[0]] + (b[1..] + (s + (d + c)));
  }

  lemma CommandTailSplit(o: Cluster, podName: string)
    ensures StanContainerCmd(o, podName)[0] == ServerBinary
    ensures StanContainerCmd(o, podName)[1..]
         == BaseArgs(o)[1..] + (StoreArgs(o, podName) + (DiagArgs(o.spec.config) + ConfigFileArgs(o)))
  {
    DropHead(BaseArgs(o), StoreArgs(o, podName), DiagArgs(o.spec.config), ConfigFileArgs(o));
  }

  /** The settings after base, store, diagnostic and config-file arguments. */
  function TailState(o: Cluster, podName: string, stage: nat): Options
    decreases stage
  {
    var config := o.spec.config;
    if stage == 0 then Initial(ServerBinary)
    else if stage == 1 then
      TailState(o, podName, 0).(clusterId := Some(o.name),
                                natsServer := Some(NatsUrl(o.spec.natsService)),
                                monitorPort := Some(NatToString(MonitoringPort)))
    else if stage == 2 then
      TailState(o, podName, 1).(store := Some(StoreName(o)), dir := IntendedDir(o, podName),
                                clusterLogPath := IntendedLogPath(o, podName), nodeId := IntendedNodeId(o, podName),
                                ftGroup := IntendedFtGroup(o), clustered := RaftClustered(o))
    else if stage == 3 then
      TailState(o, podName, 2).(debug := config.Some? && config.value.debug,
                                trace := config.Some? && config.value.trace,
                                raftLogging := config.Some? && config.value.raftLogging)
    else TailState(o, podName, 3).(configFile := IntendedConfigFile(o))
  }

  lemma TailStateIsIntended(o: Cluster, podName: string)
    ensures TailState(o, podName, 4) == IntendedOptions(o, podName, false)
  {
  }

  lemma ParseSegments(o: Cluster, podName: string)
    ensures ParseFrom(BaseArgs(o)[1..], TailState(o, podName, 0)) == Some(TailState(o, podName, 1))
    ensures ParseFrom(StoreArgs(o, podName), TailState(o, podName, 1)) == Some(TailState(o, podName, 2))
    ensures ParseFrom(DiagArgs(o.spec.config), TailState(o, podName, 2)) == Some(TailState(o, podName, 3))
    ensures ParseFrom(ConfigFileArgs(o), TailState(o, podName, 3)) == Some(TailState(o, podName, 4))
  {
    ParseBaseArgs(o);
    ParseStoreArgs(o, podName, TailState(o, podName, 1));
    ParseDiagArgs(o.spec.config, TailState(o, podName, 2));
    ParseConfigFileArgs(o, TailState(o, podName, 3));
  }

  lemma ParseCommandTail(o: Cluster, podName: string)
    ensures ParseFrom(StanContainerCmd(o, podName)[1..], Initial(ServerBinary))
         == Some(IntendedOptions(o, podName, false))
  {
    var base := BaseArgs(o)[1..];
    var store := StoreArgs(o, podName);
    var diag := DiagArgs(o.spec.config);
    var sc := ConfigFileArgs(o);
    ParseSegments(o, podName);
    CommandTailSplit(o, podName);
    ParseFromConcat(diag, sc, TailState(o, podName, 2), TailState(o, podName, 3));
    ParseFromConcat(store, diag + sc, TailState(o, podName, 1), TailState(o, podName, 2));
    ParseFromConcat(base, store + (diag + sc), TailState(o, podName, 0), TailState(o, podName, 1));
    TailStateIsIntended(o, podName);
  }

  /** A follower's command reads back as exactly the settings the declaration
      asks for: store kind, clustering flags, storage and Raft log paths, FT
      group, diagnostics and config file, each given once, and no bootstrap flag. */
  lemma CommandReadsBack(o: Cluster, podName: string)
    ensures Parse(StanContainerCmd(o, podName)) == Some(IntendedOptions(o, podName, false))
  {
    ParseCommandTail(o, podName);
  }

  /** The bootstrap command reads back as the follower's settings, with the
      bootstrap flag set exactly when Size is not 1. */
  lemma BootstrapCommandReadsBack(o: Cluster, podName: string)
    ensures Parse(StanContainerBootstrapCmd(o, podName)) == Some(IntendedOptions(o, podName, true))
    ensures o.spec.size == 1 ==> StanContainerBootstrapCmd(o, podName) == StanContainerCmd(o, podName)
    ensures o.spec.size != 1 ==> StanContainerBootstrapCmd(o, podName) == StanContainerCmd(o, podName) + ["-cluster_bootstrap"]
  {
    var cmd := StanContainerCmd(o, podName);
    var s4 := IntendedOptions(o, podName, false);
    ParseCommandTail(o, podName);
    if o.spec.size != 1 {
      var boot := StanContainerBootstrapCmd(o, podName);
      assert boot[1..] == cmd[1..] + ["-cluster_bootstrap"];
      ParseSwitch("-cluster_bootstrap", s4);
      ParseFromConcat(cmd[1..], ["-cluster_bootstrap"], Initial(ServerBinary), s4);
      assert s4.(bootstrap := true) == IntendedOptions(o, podName, true);
    }
  }

  lemma SplitParts(b: seq<string>, s: seq<string>, d: seq<string>, c: seq<string>)
    ensures var all := b + s + d + c;
      && all[..|b|] == b
      && all[|b|..|b| + |s|] == s
      && all[|b| + |s|..] == d + c
  {
    var all := b + s + d + c;
    assert all == b + (s + (d + c));
    assert all[|b|..] == s + (d + c);
  }

  /** Where each group of arguments sits: the fixed head, then the store
      arguments, then the diagnostic flags and the config file. */
  lemma CommandLayout(o: Cluster, podName: string)
    ensures var cmd := StanContainerCmd(o, podName);
      && |cmd| >= 7
      && cmd[..7] == [ServerBinary, "-cluster_id", o.name, "-nats_server", NatsUrl(o.spec.natsService),
                      "-m", NatToString(MonitoringPort)]
      && cmd[7..7 + |StoreArgs(o, podName)|] == StoreArgs(o, podName)
      && cmd[7 + |StoreArgs(o, podName)|..] == DiagArgs(o.spec.config) + ConfigFileArgs(o)
  {
    SplitParts(BaseArgs(o), StoreArgs(o, podName), DiagArgs(o.spec.config), ConfigFileArgs(o));
  }

  /** The store arguments by store kind; within the file store, `-dir` and
      the argument that accompanies it come last. */
  lemma StoreLayout(o: Cluster, podName: string)
    ensures IsSql(o) ==> StoreArgs(o, podName) == ["-store", "SQL"]
    ensures o.spec.storeType == "MEMORY" ==> StoreArgs(o, podName) == ["-store", "MEMORY"]
    ensures IsFileStore(o) ==> StoreArgs(o, podName) == ["-store", "file"] + ClusteringArgs(o, podName) + DirArgs(o, podName)
    ensures HasStoreDir(o) && FtMode(o) ==>
      DirArgs(o, podName) == ["-dir", o.spec.config.value.storeDir + "/" + PodName(o.name, 1),
                              FtGroupPrefix + o.spec.config.value.ftGroup]
    ensures HasStoreDir(o) && !FtMode(o) ==>
      DirArgs(o, podName) == ["-dir", o.spec.config.value.storeDir + "/" + podName,
                              "--cluster_log_path", o.spec.config.value.storeDir + "/raft/" + podName]
    ensures !HasStoreDir(o) ==> DirArgs(o, podName) == ["-dir", "store"]
  {
    FirstPodName(o.name);
    if HasStoreDir(o) {
      var dir := o.spec.config.value.storeDir;
      assert dir + "/" + o.name + "-1" == dir + "/" + PodName(o.name, 1);
    }
  }

  // ---------------------------------------------------------------------
  // Pod assembly

  function TemplateMeta(o: Cluster): ObjectMeta {
    if o.spec.podTemplate.Some? then o.spec.podTemplate.value.meta else EmptyMeta
  }

  function TemplateSpec(o: Cluster): PodSpec {
    if o.spec.podTemplate.Some? then o.spec.podTemplate.value.spec else EmptySpec
  }

  /** `newStanPod`: the template's metadata and pod spec, in the cluster's
      namespace, with the two operator labels and a default restart policy. */
  function NewStanPod(o: Cluster): (pod: Pod)
    ensures pod.meta.namespace == o.namespace
    ensures AppLabel in pod.meta.labels && pod.meta.labels[AppLabel] == AppName
    ensures ClusterLabel in pod.meta.labels && pod.meta.labels[ClusterLabel] == o.name
    ensures pod.meta.labels.Keys == TemplateMeta(o).labels.Keys + {AppLabel, ClusterLabel}
    ensures forall k :: k in TemplateMeta(o).labels && k != AppLabel && k != ClusterLabel ==>
              pod.meta.labels[k] == TemplateMeta(o).labels[k]
    ensures pod.meta.name == TemplateMeta(o).name
    ensures pod.meta.annotations == TemplateMeta(o).annotations
    ensures pod.meta.terminating == TemplateMeta(o).terminating
    ensures TemplateSpec(o).restartPolicy == "" ==> pod.spec.restartPolicy == RestartPolicyOnFailure
    ensures TemplateSpec(o).restartPolicy != "" ==> pod.spec.restartPolicy == TemplateSpec(o).restartPolicy
    ensures pod.spec.containers == TemplateSpec(o).containers
    ensures pod.spec.volumes == TemplateSpec(o).volumes
  {
    var meta := TemplateMeta(o);
    var spec := TemplateSpec(o);
    var labels := meta.labels[AppLabel := AppName][ClusterLabel := o.name];
    var policy := if spec.restartPolicy == "" then RestartPolicyOnFailure else spec.restartPolicy;
    Pod(meta.(namespace := o.namespace, labels := labels), spec.(restartPolicy := policy))
  }

  function FirstContainer(pod: Pod): Container {
    if |pod.spec.containers| >= 1 then pod.spec.containers[0] else EmptyContainer
  }

  /** `stanContainer`: the pod's first container, or an empty one, named
      `stan`, with the declared image, else the container's own, else the default. */
  function StanContainer(o: Cluster, pod: Pod): (c: Container)
    ensures c.name == ContainerName
    ensures o.spec.image != "" ==> c.image == o.spec.image
    ensures o.spec.image == "" && FirstContainer(pod).image != "" ==> c.image == FirstContainer(pod).image
    ensures o.spec.image == "" && FirstContainer(pod).image == "" ==> c.image == DefaultNATSStreamingImage
    ensures c.image != ""
    ensures c.command == FirstContainer(pod).command
    ensures c.volumeMounts == FirstContainer(pod).volumeMounts
  {
    var base := FirstContainer(pod);
    var image := if o.spec.image != "" then o.spec.image
                 else if base.image == "" then DefaultNATSStreamingImage
                 else base.image;
    base.(image := image, name := ContainerName)
  }

  /** The container slot replacement in `createBootstrapPod` and `createMissingPods`:
      the container takes slot 0, or becomes the only container. */
  function WithStanContainer(pod: Pod, c: Container): (r: Pod)
    ensures r.meta == pod.meta
    ensures r.spec.restartPolicy == pod.spec.restartPolicy && r.spec.volumes == pod.spec.volumes
    ensures |r.spec.containers| == if |pod.spec.containers| >= 1 then |pod.spec.containers| else 1
    ensures r.spec.containers[0] == c
    ensures forall i :: 1 <= i < |pod.spec.containers| ==> r.spec.containers[i] == pod.spec.containers[i]
  {
    if |pod.spec.containers| >= 1 then pod.(spec := pod.spec.(containers := pod.spec.containers[0 := c]))
    else pod.(spec := pod.spec.(containers := [c]))
  }

  function MakePod(o: Cluster, name: string, bootstrap: bool): Pod {
    var pod := NewStanPod(o);
    var named := pod.(meta := pod.meta.(name := name));
    var cmd := if bootstrap then StanContainerBootstrapCmd(o, name) else StanContainerCmd(o, name);
    WithStanContainer(named, StanContainer(o, named).(command := cmd))
  }

  /** The pod `createBootstrapPod` submits. */
  function BootstrapPod(o: Cluster): Pod {
    MakePod(o, o.name + "-1", true)
  }

  /** The pod `createMissingPods` submits for index i. */
  function MemberPod(o: Cluster, i: nat): Pod {
    MakePod(o, PodName(o.name, i), false)
  }

  /** What every pod the operator submits looks like: its name, the label
      pair the listing selects on, the cluster's namespace, and a first
      container named `stan` whose command reads back as the intended
      settings; only the bootstrap pod carries the bootstrap flag. */
  lemma {:induction false} SubmittedPods(o: Cluster, i: nat)
    ensures var p := MemberPod(o, i);
      && p.meta.name == PodName(o.name, i)
      && Selects(p, o.namespace, o.name)
      && |p.spec.containers| >= 1 && p.spec.containers[0].name == ContainerName
      && Parse(p.spec.containers[0].command) == Some(IntendedOptions(o, PodName(o.name, i), false))
      && !IntendedOptions(o, PodName(o.name, i), false).bootstrap
    ensures var p := BootstrapPod(o);
      && p.meta.name == PodName(o.name, 1)
      && Selects(p, o.namespace, o.name)
      && |p.spec.containers| >= 1 && p.spec.containers[0].name == ContainerName
      && Parse(p.spec.containers[0].command) == Some(IntendedOptions(o, PodName(o.name, 1), true))
      && (IntendedOptions(o, PodName(o.name, 1), true).bootstrap <==> o.spec.size != 1)
  {
    FirstPodName(o.name);
    CommandReadsBack(o, PodName(o.name, i));
    BootstrapCommandReadsBack(o, PodName(o.name, 1));
  }

  // ---------------------------------------------------------------------
  // Reconcile decision

  /** The size clamp at the head of `reconcile`. */
  function Clamped(o: Cluster): (r: Cluster)
    ensures r.spec.size >= 1
    ensures IsSql(o) ==> r.spec.size == 1
    ensures o.spec.size < 1 ==> r.spec.size == 1
    ensures !IsSql(o) && o.spec.size >= 1 ==> r == o
    ensures r == o.(spec := o.spec.(size := r.spec.size))
  {
    if o.spec.storeType == "SQL" || o.spec.size < 1 then o.(spec := o.spec.(size := 1)) else o
  }

  datatype Action = NoAction | Shrink(surplus: nat) | CreateMissing(missing: nat) | CreateBootstrap

  /** The branch `reconcile` takes for a (clamped) declaration, given whether
      its UID is cached and how many of its pods are running. */
  function Decide(o: Cluster, seen: bool, running: nat): (a: Action)
    ensures a == NoAction <==> running == o.spec.size as int
    ensures a.Shrink? <==> running > o.spec.size as int
    ensures a.Shrink? ==> a.surplus == running - o.spec.size as int
    ensures a == CreateBootstrap <==> running < o.spec.size as int && !seen && !IsSql(o) && !FtMode(o)
    ensures a.CreateMissing? <==> running < o.spec.size as int && (seen || IsSql(o) || FtMode(o))
    ensures a.CreateMissing? ==> a.missing == o.spec.size as int - running
  {
    var n := running - o.spec.size as int;
    if n == 0 then NoAction
    else if n > 0 then Shrink(n)
    else if IsSql(o) || FtMode(o) then CreateMissing(-n)
    else if !seen then CreateBootstrap
    else CreateMissing(-n)
  }

  /** The reconciliation of a declared three-node file-store cluster from
      an empty inventory: the first pass creates only the bootstrap pod,
      the second the two followers, the third nothing. */
  lemma ThreeNodeScenario(o: Cluster)
    requires o.spec.size == 3 && o.spec.storeType == "file" && o.spec.config.None?
    ensures Clamped(o) == o
    ensures Decide(o, false, 0) == CreateBootstrap
    ensures Decide(o, true, 1) == CreateMissing(2)
    ensures Decide(o, true, 3) == NoAction
    ensures IntendedOptions(o, PodName(o.name, 1), true).bootstrap
    ensures !IntendedOptions(o, PodName(o.name, 2), false).bootstrap
  {
  }

  /** The second pass of that scenario: with only the bootstrap pod stored,
      any plan `createMissingPods` may make for a deficit of two (its
      contract, taken as the requires) is exactly `<name>-3` then
      `<name>-2`; the pods it creates are among these. */
  lemma {:induction false} SecondPassPlan(o: Cluster, planned: seq<nat>, lowest: int)
    requires o.spec.size == 3
    requires PlannedFrom([BootstrapPod(o)], o.namespace, o.name, 3, 2, planned, lowest)
    ensures planned == [3, 2]
  {
    FirstPodName(o.name);
    forall j: nat | 2 <= j <= 3
      ensures !HasPod([BootstrapPod(o)], o.namespace, PodName(o.name, j))
    {
      PodNameInjective(o.name, 1, j);
    }
    if |planned| == 2 {
      assert lowest < planned[1] < planned[0];
    }
    assert lowest < 2;
    assert 3 in planned && 2 in planned;
  }

  /** A SQL declaration is clamped to one pod, whatever its Size; once one
      pod runs there is nothing to do. */
  lemma SqlClamp(o: Cluster)
    requires IsSql(o)
    ensures Clamped(o).spec.size == 1
    ensures Decide(Clamped(o), true, 1) == NoAction
    ensures Decide(Clamped(o), false, 0) == CreateMissing(1)
  {
  }

  /** Both members of a fault-tolerance pair use the data directory of pod 1. */
  lemma FtDirShared(o: Cluster, p: string, q: string)
    requires IsFileStore(o) && HasStoreDir(o) && FtMode(o)
    ensures IntendedDir(o, p) == IntendedDir(o, q) == Some(o.spec.config.value.storeDir + "/" + PodName(o.name, 1))
    ensures IntendedLogPath(o, p) == None && IntendedNodeId(o, p) == None
  {
  }

  function MemberPods(o: Cluster, indices: seq<nat>): (r: seq<Pod>)
    ensures |r| == |indices|
    ensures forall k :: 0 <= k < |indices| ==> r[k] == MemberPod(o, indices[k])
  {
    if indices == [] then [] else [MemberPod(o, indices[0])] + MemberPods(o, indices[1..])
  }

  lemma {:induction false} MemberPodsAppend(o: Cluster, s: seq<nat>, i: nat)
    ensures MemberPods(o, s + [i]) == MemberPods(o, s) + [MemberPod(o, i)]
  {
    assert |MemberPods(o, s + [i])| == |s| + 1;
  }

  /** The pods running for a cluster in the API's current state. */
  function RunningFor(pods: seq<Pod>, o: Cluster): seq<Pod> {
    Running(Selected(pods, o.namespace, o.name))
  }

  /** `after` is `before` with some member pods of `o` appended: at most
      `n` of them, with distinct indices in 1..Size, highest first. */
  ghost predicate AddedMembers(o: Cluster, before: seq<Pod>, after: seq<Pod>, n: nat) {
    exists planned: seq<nat>, lowest: int, c: seq<nat>
      {:trigger PlannedFrom(before, o.namespace, o.name, o.spec.size as int, n, planned, lowest), MemberPods(o, c)} ::
      && PlannedFrom(before, o.namespace, o.name, o.spec.size as int, n, planned, lowest)
      && StrictlyDecreasing(c) && |c| <= |planned|
      && (forall x :: x in c ==> x in planned)
      && (forall x :: x in c ==> !HasPod(before, o.namespace, PodName(o.name, x)))
      && after == before + MemberPods(o, c)
  }

  /** `after` is `before` less at most `n` of the listed `pods`, never the
      first one listed. */
  ghost predicate Shrunk(before: seq<Pod>, after: seq<Pod>, pods: seq<Pod>, n: nat) {
    exists d: seq<nat> ::
      && |d| <= n && StrictlyDecreasing(d)
      && (forall x :: x in d ==> 1 <= x < |pods|)
      && after == Without(before, KeysAt(pods, d))
  }

  lemma ShrunkBy(before: seq<Pod>, after: seq<Pod>, pods: seq<Pod>, n: nat, d: seq<nat>)
    requires |d| <= n && StrictlyDecreasing(d)
    requires forall k :: 0 <= k < |d| ==> 1 <= d[k] < |pods|
    requires after == Without(before, KeysAt(pods, d))
    ensures Shrunk(before, after, pods, n)
  {
    assert forall x :: x in d ==> 1 <= x < |pods|;
  }

  lemma AddedBy(o: Cluster, before: seq<Pod>, after: seq<Pod>, n: nat, planned: seq<nat>, lowest: int, c: seq<nat>)
    requires PlannedFrom(before, o.namespace, o.name, o.spec.size as int, n, planned, lowest)
    requires StrictlyDecreasing(c) && |c| <= |planned|
    requires forall x :: x in c ==> x in planned
    requires forall x :: x in c ==> !HasPod(before, o.namespace, PodName(o.name, x))
    requires after == before + MemberPods(o, c)
    ensures AddedMembers(o, before, after, n)
  {
  }

  /** What carrying out `a` for the clamped declaration `o` does to the
      API's pods, and what it returns. */
  ghost predicate Effect(o: Cluster, before: seq<Pod>, after: seq<Pod>, a: Action, err: Option<ApiError>) {
    match a
    case NoAction => err.None? && after == before
    case Shrink(k) => err.None? && Shrunk(before, after, RunningFor(before, o), k)
    case CreateMissing(k) => err.None? && AddedMembers(o, before, after, k)
    case CreateBootstrap =>
      && (after == before || after == before + [BootstrapPod(o)])
      && (err.Some? ==> after == before && err != Some(AlreadyExists))
      && (err.None? && after == before ==> HasPod(before, o.namespace, o.name + "-1"))
      && (HasPod(before, o.namespace, o.name + "-1") ==> err.None? && after == before)
      && (!HasPod(before, o.namespace, o.name + "-1") && err.None? ==> after == before + [BootstrapPod(o)])
  }

  // ---------------------------------------------------------------------
  // The controller and its cache

  class Controller {
    /** The clusters seen so far, by UID. */
    var clusters: map<string, Cluster>
    const api: PodApi

    /** `NewController`: an empty cache. */
    constructor (api: PodApi)
      ensures clusters == map[] && this.api == api
    {
      clusters := map[];
      this.api := api;
    }

    /** `createBootstrapPod`: submits `<name>-1` with the bootstrap command;
        "already exists" counts as success. */
    method CreateBootstrapPod(o: Cluster) returns (err: Option<ApiError>)
      modifies api
      ensures api.pods == old(api.pods) || api.pods == old(api.pods) + [BootstrapPod(o)]
      ensures err.None? && api.pods == old(api.pods) ==> HasPod(old(api.pods), o.namespace, o.name + "-1")
      ensures err.Some? ==> api.pods == old(api.pods) && err != Some(AlreadyExists)
      ensures HasPod(old(api.pods), o.namespace, o.name + "-1") ==> err.None? && api.pods == old(api.pods)
      ensures !HasPod(old(api.pods), o.namespace, o.name + "-1") && err.None? ==> api.pods == old(api.pods) + [BootstrapPod(o)]
    {
      var pod := BootstrapPod(o);
      var e := api.Create(pod);
      if e.Some? && e != Some(AlreadyExists) {
        return e;
      }
      return None;
    }

    /** The second loop of `createMissingPods`: submits the member pod of
        each planned index in order, going on past every failure.
        `created` are the indices the API accepted. */
    method SubmitPods(o: Cluster, indices: seq<nat>) returns (ghost created: seq<nat>)
      requires StrictlyDecreasing(indices)
      modifies api
      ensures StrictlyDecreasing(created) && |created| <= |indices|
      ensures forall x :: x in created ==> x in indices
      ensures api.pods == old(api.pods) + MemberPods(o, created)
      ensures forall x :: x in created ==> !HasPod(old(api.pods), o.namespace, PodName(o.name, x))
    {
      created := [];
      for k := 0 to |indices|
        invariant api.pods == old(api.pods) + MemberPods(o, created)
        invariant StrictlyDecreasing(created) && |created| <= k
        invariant forall x :: x in created ==> x in indices[..k]
        invariant forall x :: x in created ==> !HasPod(old(api.pods), o.namespace, PodName(o.name, x))
      {
        var pod := MemberPod(o, indices[k]);
        var e := api.Create(pod);
        if e.None? {
          HasPodPrefix(old(api.pods), MemberPods(o, created), o.namespace, PodName(o.name, indices[k]));
          assert forall x :: x in created ==> x > indices[k];
          AppendLower(created, indices[k]);
          MemberPodsAppend(o, created, indices[k]);
          created := created + [indices[k]];
        }
      }
      assert indices[..|indices|] == indices;
    }

    /** `createMissingPods`: plans the missing pods, then submits them;
        the result is always nil. */
    method CreateMissingPods(o: Cluster, n: nat)
      returns (err: Option<ApiError>, ghost planned: seq<nat>, ghost created: seq<nat>, ghost lowest: int)
      modifies api
      ensures err.None?
      ensures PlannedFrom(old(api.pods), o.namespace, o.name, o.spec.size as int, n, planned, lowest)
      ensures StrictlyDecreasing(created) && |created| <= |planned|
      ensures forall x :: x in created ==> x in planned
      ensures api.pods == old(api.pods) + MemberPods(o, created)
      ensures forall x :: x in created ==> !HasPod(old(api.pods), o.namespace, PodName(o.name, x))
    {
      var indices;
      indices, lowest := PlanMissingPods(api, o.namespace, o.name, o.spec.size as int, n);
      planned := indices;
      created := SubmitPods(o, indices);
      err := None;
    }

    /** `shrinkCluster`: deletes from the end of the listing, never the pod
        at position 0, until `delta` deletions succeeded. The inner `err :=`
        shadows the returned one, so the result is always nil. `deleted`
        are the positions removed, and the scan tried positions down to
        `lowestTried`. */
    method ShrinkCluster(pods: seq<Pod>, delta: nat)
      returns (err: Option<ApiError>, ghost deleted: seq<nat>, ghost lowestTried: int)
      modifies api
      ensures err.None?
      ensures |deleted| <= delta && StrictlyDecreasing(deleted)
      ensures |deleted| < |pods| || deleted == []
      ensures forall k :: 0 <= k < |deleted| ==> 1 <= deleted[k] < |pods| && lowestTried <= deleted[k]
      ensures |deleted| < delta ==> lowestTried <= 1
      ensures 0 < |deleted| == delta ==> lowestTried == deleted[|deleted| - 1]
      ensures api.pods == Without(old(api.pods), KeysAt(pods, deleted))
    {
      var count := 0;
      deleted := [];
      var i := |pods| - 1;
      lowestTried := |pods|;
      WithoutNothing(api.pods);
      assert KeysAt(pods, deleted) == {};
      while i > 0
        invariant -1 <= i < |pods| && lowestTried == i + 1 && (i < 0 ==> |pods| == 0)
        invariant count == |deleted| <= delta && |deleted| <= |pods| - 1 - i
        invariant StrictlyDecreasing(deleted)
        invariant forall k :: 0 <= k < |deleted| ==> i < deleted[k] < |pods| && 1 <= deleted[k]
        invariant 0 < |deleted| ==> deleted[|deleted| - 1] == i + 1 || count < delta
        invariant api.pods == Without(old(api.pods), KeysAt(pods, deleted))
      {
        if count == delta {
          return None, deleted, lowestTried;
        }
        var e;
        e, deleted := DeleteListed(api, pods, i, old(api.pods), deleted);
        if e.None? {
          count := count + 1;
        }
        i := i - 1;
        lowestTried := i + 1;
      }
      err := None;
    }
 
    /** The branches of `reconcile` after the clamp, for the running pods
        `pods` of the clamped declaration `o`. */
    method Dispatch(o: Cluster, pods: seq<Pod>, seen: bool) returns (err: Option<ApiError>)
      requires pods == RunningFor(api.pods, o)
      modifies api
      ensures Effect(o, old(api.pods), api.pods, Decide(o, seen, |pods|), err)
    {
      var n := |pods| - o.spec.size as int;
      if n == 0 {
        err := None;
      } else if n > 0 {
        ghost var deleted, lowestTried;
        err, deleted, lowestTried := ShrinkCluster(pods, n);
        ShrunkBy(old(api.pods), api.pods, pods, n, deleted);
      } else if IsSql(o) || FtMode(o) {
        ghost var planned, created, lowest;
        err, planned, created, lowest := CreateMissingPods(o, -n);
        AddedBy(o, old(api.pods), api.pods, -n, planned, lowest, created);
      } else if !seen {
        err := CreateBootstrapPod(o);
      } else {
        ghost var planned, created, lowest;
        err, planned, created, lowest := CreateMissingPods(o, -n);
        AddedBy(o, old(api.pods), api.pods, -n, planned, lowest, created);
      }
    }

    /** `reconcile`: lists the running pods (a listing error is returned
        as it is, before the size is clamped); clamps the size in place;
        then shrinks, creates the missing pods or the bootstrap pod as
        `Decide` says. `stored` is the declaration as `reconcile` leaves
        it, and `action` the branch taken, if any. */
    method Reconcile(o: Cluster) returns (stored: Cluster, err: Option<ApiError>, ghost action: Option<Action>)
      modifies api
      ensures action.None? ==> err.Some? && stored == o && api.pods == old(api.pods)
      ensures action.Some? ==> stored == Clamped(o)
      ensures action.Some? ==> action.value == Decide(stored, o.uid in clusters, |RunningFor(old(api.pods), o)|)
      ensures action.Some? ==> Effect(stored, old(api.pods), api.pods, action.value, err)
    {
      var listed := FindRunningPods(api, o.name, o.namespace);
      if listed.Err? {
        return o, Some(listed.error), None;
      }
      stored := Clamped(o);
      action := Some(Decide(stored, o.uid in clusters, |listed.value|));
      err := Dispatch(stored, listed.value, o.uid in clusters);
    }

    /** `processAdd`: a declaration being deleted is dropped from the
        cache; any other is reconciled and then cached under its UID as
        `reconcile` left it, whatever `reconcile` returned. */
    method ProcessAdd(o: Cluster) returns (err: Option<ApiError>, ghost action: Option<Action>)
      modifies this, api
      ensures o.deleting ==> clusters == old(clusters) - {o.uid} && api.pods == old(api.pods) && err.None?
      ensures o.deleting ==> action.None?
      ensures !o.deleting ==> clusters == old(clusters)[o.uid := if action.Some? then Clamped(o) else o]
      ensures !o.deleting && action.None? ==> err.Some? && api.pods == old(api.pods)
      ensures action.Some? ==> action.value == Decide(Clamped(o), o.uid in old(clusters), |RunningFor(old(api.pods), o)|)
      ensures action.Some? ==> Effect(Clamped(o), old(api.pods), api.pods, action.value, err)
    {
      if o.deleting {
        clusters := clusters - {o.uid};
        return None, None;
      }
      var stored;
      stored, err, action := Reconcile(o);
      clusters := clusters[o.uid := stored];
    }

    /** `processUpdate`: the previous version is not looked at; a new
        version being deleted is dropped from the cache, any other is
        handled as `processAdd` handles it. */
    method ProcessUpdate(previous: Cluster, current: Cluster) returns (err: Option<ApiError>, ghost action: Option<Action>)
      modifies this, api
      ensures current.deleting ==> clusters == old(clusters) - {current.uid} && api.pods == old(api.pods) && err.None?
      ensures current.deleting ==> action.None?
      ensures !current.deleting ==> clusters == old(clusters)[current.uid := if action.Some? then Clamped(current) else current]
      ensures !current.deleting && action.None? ==> err.Some? && api.pods == old(api.pods)
      ensures action.Some? ==> action.value == Decide(Clamped(current), current.uid in old(clusters), |RunningFor(old(api.pods), current)|)
      ensures action.Some? ==> Effect(Clamped(current), old(api.pods), api.pods, action.value, err)
    {
      if current.deleting {
        if current.uid !in clusters {
          return None, None;
        }
        clusters := clusters - {current.uid};
        return None, None;
      }
      var stored;
      stored, err, action := Reconcile(current);
      clusters := clusters[current.uid := stored];
    }

    /** `processDelete`: nothing to do; the pods go with their owner. */
    method ProcessDelete(o: Cluster) returns (err: Option<ApiError>)
      ensures err.None?
    {
      err := None;
    }
  }
}
