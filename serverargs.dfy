/** A strict reading of a `nats-streaming-server` command line: after the
    binary path every argument is a known flag or the value of the flag
    before it, and no flag is given twice. Reading a generated command back
    into an `Options` record is how the model states which settings each
    generated command carries, and that it carries each of them once. */
module ServerArgs {
  import opened Kube

  datatype Options = Options(
    binary: string,
    clusterId: Option<string>,
    natsServer: Option<string>,
    monitorPort: Option<string>,
    store: Option<string>,
    dir: Option<string>,
    clusterLogPath: Option<string>,
    configFile: Option<string>,
    nodeId: Option<string>,
    ftGroup: Option<string>,
    clustered: bool,
    bootstrap: bool,
    debug: bool,
    trace: bool,
    raftLogging: bool)

  /** Flags that carry a value, either as the next argument or after `=`. */
  datatype ValueFlag =
    ClusterId | NatsServer | MonitorPort | Store | Dir | ClusterLogPath | ConfigFile | NodeId | FtGroup

  /** Flags that stand alone. */
  datatype Switch = Clustered | Bootstrap | Debug | Trace | RaftLogging

  const ServerBinary := "/nats-streaming-server"

  /** `fmt.Sprintf("nats://%s:4222", service)`. */
  function NatsUrl(service: string): string {
    "nats://" + service + ":4222"
  }

  const NodeIdPrefix := "--cluster_node_id="
  const FtGroupPrefix := "--ft_group="

  function Initial(binary: string): Options {
    Options(binary, None, None, None, None, None, None, None, None, None, false, false, false, false, false)
  }

  /** Flags whose value is the following argument. */
  function SeparateFlag(a: string): Option<ValueFlag> {
    if a == "-cluster_id" then Some(ClusterId)
    else if a == "-nats_server" then Some(NatsServer)
    else if a == "-m" then Some(MonitorPort)
    else if a == "-store" then Some(Store)
    else if a == "-dir" then Some(Dir)
    else if a == "--cluster_log_path" then Some(ClusterLogPath)
    else if a == "-sc" then Some(ConfigFile)
    else None
  }

  function SwitchOf(a: string): Option<Switch> {
    if a == "-clustered" then Some(Clustered)
    else if a == "-cluster_bootstrap" then Some(Bootstrap)
    else if a == "-SD" then Some(Debug)
    else if a == "-SV" then Some(Trace)
    else if a == "--cluster_raft_logging" then Some(RaftLogging)
    else None
  }

  predicate HasPrefix(a: string, p: string) {
    |p| <= |a| && a[..|p|] == p
  }

  function ValueOf(o: Options, f: ValueFlag): Option<string> {
    match f
    case ClusterId => o.clusterId
    case NatsServer => o.natsServer
    case MonitorPort => o.monitorPort
    case Store => o.store
    case Dir => o.dir
    case ClusterLogPath => o.clusterLogPath
    case ConfigFile => o.configFile
    case NodeId => o.nodeId
    case FtGroup => o.ftGroup
  }

  function WithValue(o: Options, f: ValueFlag, v: string): Options {
    match f
    case ClusterId => o.(clusterId := Some(v))
    case NatsServer => o.(natsServer := Some(v))
    case MonitorPort => o.(monitorPort := Some(v))
    case Store => o.(store := Some(v))
    case Dir => o.(dir := Some(v))
    case ClusterLogPath => o.(clusterLogPath := Some(v))
    case ConfigFile => o.(configFile := Some(v))
    case NodeId => o.(nodeId := Some(v))
    case FtGroup => o.(ftGroup := Some(v))
  }

  function IsOn(o: Options, s: Switch): bool {
    match s
    case Clustered => o.clustered
    case Bootstrap => o.bootstrap
    case Debug => o.debug
    case Trace => o.trace
    case RaftLogging => o.raftLogging
  }

  function TurnOn(o: Options, s: Switch): Options {
    match s
    case Clustered => o.(clustered := true)
    case Bootstrap => o.(bootstrap := true)
    case Debug => o.(debug := true)
    case Trace => o.(trace := true)
    case RaftLogging => o.(raftLogging := true)
  }

  /** A value flag given a second time is refused. */
  function SetValue(o: Options, f: ValueFlag, v: string): (r: Option<Options>)
    ensures r.Some? <==> ValueOf(o, f).None?
    ensures r.Some? ==> ValueOf(r.value, f) == Some(v)
  {
    if ValueOf(o, f).Some? then None else Some(WithValue(o, f, v))
  }

  /** A switch given a second time is refused. */
  function SetSwitch(o: Options, s: Switch): (r: Option<Options>)
    ensures r.Some? <==> !IsOn(o, s)
    ensures r.Some? ==> IsOn(r.value, s)
  {
    if IsOn(o, s) then None else Some(TurnOn(o, s))
  }

  /** Reads the arguments after the binary path into `o`. */
  function ParseFrom(args: seq<string>, o: Options): Option<Options>
    decreases |args|
  {
    if args == [] then Some(o)
    else
      var a := args[0];
      match SeparateFlag(a)
      case Some(f) =>
        if |args| < 2 then None
        else (match SetValue(o, f, args[1])
              case None => None
              case Some(o') => ParseFrom(args[2..], o'))
      case None =>
        match SwitchOf(a)
        case Some(s) =>
          (match SetSwitch(o, s)
           case None => None
           case Some(o') => ParseFrom(args[1..], o'))
        case None =>
          if HasPrefix(a, NodeIdPrefix) then
            (match SetValue(o, NodeId, a[|NodeIdPrefix|..])
             case None => None
             case Some(o') => ParseFrom(args[1..], o'))
          else if HasPrefix(a, FtGroupPrefix) then
            (match SetValue(o, FtGroup, a[|FtGroupPrefix|..])
             case None => None
             case Some(o') => ParseFrom(args[1..], o'))
          else None
  }

  /** Reads a whole command line: the binary path, then the flags. */
  function Parse(cmd: seq<string>): Option<Options> {
    if cmd == [] then None else ParseFrom(cmd[1..], Initial(cmd[0]))
  }

  /** A command line read in two parts: what the first part sets is what
      the second part is read against. */
  lemma {:induction false} ParseFromConcat(xs: seq<string>, ys: seq<string>, o: Options, o': Options)
    requires ParseFrom(xs, o) == Some(o')
    ensures ParseFrom(xs + ys, o) == ParseFrom(ys, o')
    decreases |xs|
  {
    if xs == [] {
      assert xs + ys == ys;
    } else {
      var a := xs[0];
      assert (xs + ys)[0] == a;
      match SeparateFlag(a)
      case Some(f) =>
        assert |xs| >= 2;
        assert (xs + ys)[1] == xs[1];
        assert (xs + ys)[2..] == xs[2..] + ys;
        var o1 := SetValue(o, f, xs[1]).value;
        ParseFromConcat(xs[2..], ys, o1, o');
      case None =>
        assert (xs + ys)[1..] == xs[1..] + ys;
        match SwitchOf(a)
        case Some(s) =>
          ParseFromConcat(xs[1..], ys, SetSwitch(o, s).value, o');
        case None =>
          if HasPrefix(a, NodeIdPrefix) {
            ParseFromConcat(xs[1..], ys, SetValue(o, NodeId, a[|NodeIdPrefix|..]).value, o');
          } else {
            ParseFromConcat(xs[1..], ys, SetValue(o, FtGroup, a[|FtGroupPrefix|..]).value, o');
          }
    }
  }

  /** Reading a flag and its value. */
  lemma ParsePair(flag: string, v: string, o: Options)
    requires SeparateFlag(flag).Some? && ValueOf(o, SeparateFlag(flag).value).None?
    ensures ParseFrom([flag, v], o) == Some(WithValue(o, SeparateFlag(flag).value, v))
  {
    assert [flag, v][2..] == [];
  }

  /** Reading a switch. */
  lemma ParseSwitch(flag: string, o: Options)
    requires SeparateFlag(flag).None? && SwitchOf(flag).Some? && !IsOn(o, SwitchOf(flag).value)
    ensures ParseFrom([flag], o) == Some(TurnOn(o, SwitchOf(flag).value))
  {
    assert [flag][1..] == [];
  }

  /** Reading a `--flag=value` argument. */
  lemma ParseEquals(prefix: string, v: string, o: Options, f: ValueFlag)
    requires (prefix == NodeIdPrefix && f == NodeId) || (prefix == FtGroupPrefix && f == FtGroup)
    requires ValueOf(o, f).None?
    ensures ParseFrom([prefix + v], o) == Some(WithValue(o, f, v))
  {
    var a: string := prefix + v;
    assert a[..|prefix|] == prefix;
    assert a[|prefix|..] == v;
    assert |[a][1..]| == 0;
    PrefixedIsNoOtherFlag(a, prefix);
  }

  /** An argument of the `--flag=value` form is none of the other flags. */
  lemma PrefixedIsNoOtherFlag(a: string, prefix: string)
    requires prefix == NodeIdPrefix || prefix == FtGroupPrefix
    requires HasPrefix(a, prefix)
    ensures SeparateFlag(a).None? && SwitchOf(a).None?
    ensures prefix == FtGroupPrefix ==> !HasPrefix(a, NodeIdPrefix)
  {
    assert a[1] == prefix[1] && a[2] == prefix[2] && a[10] == prefix[10] by {
      assert a[..|prefix|][1] == a[1] && a[..|prefix|][2] == a[2] && a[..|prefix|][10] == a[10];
    }
    if prefix == FtGroupPrefix && |NodeIdPrefix| <= |a| {
      assert a[..|NodeIdPrefix|][2] == a[2];
    }
  }
}
