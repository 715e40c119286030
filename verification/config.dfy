/** The gateway's configuration and its builder: a port set, the host -> port
    routing map, its port -> hosts companion, the primary (certificate) host and
    an optional default backend port. Odd ports are a configuration error: the
    odd neighbour `p + 1` of an even backend port `p` is its failover port. */
module GatewayConfig {
  import opened Wrappers
  import opened Primitives

  type Port = u16
  type Host = string

  datatype Config = Config(
    allPorts: set<Port>,
    invHosts: map<Port, set<Host>>,
    hostPort: map<Host, Port>,
    primHost: Option<Host>,
    defPort: Option<Port>)

  /** A rejected mutation; the source panics before touching any field. */
  datatype ConfigError = OddPort(port: Port)

  /** The derived `Default` configuration: everything empty. */
  const Empty: Config := Config({}, map[], map[], None, None)

  /** What every configuration built from `Empty` by the three mutators satisfies. */
  predicate Valid(c: Config) {
    && (forall p :: p in c.allPorts ==> IsEven(p))
    && (forall h :: h in c.hostPort ==> c.hostPort[h] in c.allPorts)
    && (c.defPort.Some? ==> c.defPort.value in c.allPorts)
    && c.invHosts.Keys <= c.allPorts
    // invHosts covers the inverse of hostPort (it may hold more: see StaleInverseEntry)
    && (forall h :: h in c.hostPort ==> c.hostPort[h] in c.invHosts && h in c.invHosts[c.hostPort[h]])
    && (forall p, h :: p in c.invHosts && h in c.invHosts[p] ==> h in c.hostPort)
    && (c.hostPort != map[] ==> c.primHost.Some?)
  }

  /** The hosts registered for `p` so far, empty when none. */
  function HostsOf(c: Config, p: Port): set<Host> {
    if p in c.invHosts then c.invHosts[p] else {}
  }

  /** `map_host_to_port`: route `h` to the even port `p`. */
  function MapHostToPort(c: Config, h: Host, p: Port): (r: Result<Config, ConfigError>)
    ensures r.Failure? <==> !IsEven(p)
    ensures r.Failure? ==> r.error == OddPort(p)
    ensures r.Success? ==>
      && r.value.allPorts == c.allPorts + {p}
      && r.value.hostPort.Keys == c.hostPort.Keys + {h}
      && r.value.hostPort[h] == p
      && (forall g :: g in c.hostPort && g != h ==> r.value.hostPort[g] == c.hostPort[g])
      && r.value.invHosts.Keys == c.invHosts.Keys + {p}
      && r.value.invHosts[p] == HostsOf(c, p) + {h}
      && (forall q :: q in c.invHosts && q != p ==> r.value.invHosts[q] == c.invHosts[q])
      && r.value.primHost == (if c.primHost.None? then Some(h) else c.primHost)
      && r.value.defPort == c.defPort
    ensures r.Success? && Valid(c) ==> Valid(r.value)
  {
    if p % 2 != 0 then
      Failure(OddPort(p))
    else
      Success(Config(
        c.allPorts + {p},
        c.invHosts[p := HostsOf(c, p) + {h}],
        c.hostPort[h := p],
        if c.primHost.None? then Some(h) else c.primHost,
        c.defPort))
  }

  /** `set_primary_host`: overwrite the primary host, whatever it was. */
  function SetPrimaryHost(c: Config, h: Host): (r: Config)
    ensures r.primHost == Some(h)
    ensures r.allPorts == c.allPorts && r.invHosts == c.invHosts
    ensures r.hostPort == c.hostPort && r.defPort == c.defPort
    ensures Valid(c) ==> Valid(r)
  {
    c.(primHost := Some(h))
  }

  /** `set_default_port`: make the even port `p` the fallback route. */
  function SetDefaultPort(c: Config, p: Port): (r: Result<Config, ConfigError>)
    ensures r.Failure? <==> !IsEven(p)
    ensures r.Failure? ==> r.error == OddPort(p)
    ensures r.Success? ==>
      && r.value.allPorts == c.allPorts + {p}
      && r.value.defPort == Some(p)
      && r.value.hostPort == c.hostPort && r.value.invHosts == c.invHosts
      && r.value.primHost == c.primHost
    ensures r.Success? && Valid(c) ==> Valid(r.value)
  {
    if p % 2 != 0 then
      Failure(OddPort(p))
    else
      Success(c.(allPorts := c.allPorts + {p}, defPort := Some(p)))
  }

  /** One call a program makes on the configuration before starting the service. */
  datatype Command =
    | MapHost(host: Host, port: Port)
    | SetPrimary(host: Host)
    | SetDefault(port: Port)

  predicate Rejected(cmd: Command) {
    match cmd
    case MapHost(_, p) => !IsEven(p)
    case SetPrimary(_) => false
    case SetDefault(p) => !IsEven(p)
  }

  function Apply(c: Config, cmd: Command): Result<Config, ConfigError> {
    match cmd
    case MapHost(h, p) => MapHostToPort(c, h, p)
    case SetPrimary(h) => Success(SetPrimaryHost(c, h))
    case SetDefault(p) => SetDefaultPort(c, p)
  }

  /** Run the commands in order from `c`; the first rejected one aborts the build. */
  function BuildFrom(c: Config, cmds: seq<Command>): (r: Result<Config, ConfigError>)
    ensures r.Failure? <==> exists i :: 0 <= i < |cmds| && Rejected(cmds[i])
    ensures r.Success? && Valid(c) ==> Valid(r.value)
    decreases |cmds|
  {
    if cmds == [] then Success(c)
    else
      match Apply(c, cmds[0])
      case Failure(e) => Failure(e)
      case Success(c') =>
        var r := BuildFrom(c', cmds[1..]);
        assert forall i :: 1 <= i < |cmds| ==> cmds[i] == cmds[1..][i - 1];
        r
  }

  /** A configuration as a program builds it from `Default`. */
  function Build(cmds: seq<Command>): (r: Result<Config, ConfigError>)
    ensures r.Failure? <==> exists i :: 0 <= i < |cmds| && Rejected(cmds[i])
    ensures r.Success? ==> Valid(r.value)
  {
    BuildFrom(Empty, cmds)
  }

  /** The host of the last `SetPrimary` command, if any. */
  function LastPrimary(cmds: seq<Command>): Option<Host> {
    if cmds == [] then None
    else if cmds[|cmds| - 1].SetPrimary? then Some(cmds[|cmds| - 1].host)
    else LastPrimary(cmds[..|cmds| - 1])
  }

  /** The host of the first `MapHost` command, if any. */
  function FirstMapped(cmds: seq<Command>): Option<Host> {
    if cmds == [] then None
    else if cmds[0].MapHost? then Some(cmds[0].host)
    else FirstMapped(cmds[1..])
  }

  lemma {:induction false} LastPrimaryCons(cmd: Command, cmds: seq<Command>)
    ensures LastPrimary([cmd] + cmds) ==
      (if LastPrimary(cmds).Some? then LastPrimary(cmds)
       else if cmd.SetPrimary? then Some(cmd.host) else None)
    decreases |cmds|
  {
    var s := [cmd] + cmds;
    if cmds != [] {
      assert s[..|s| - 1] == [cmd] + cmds[..|cmds| - 1];
      LastPrimaryCons(cmd, cmds[..|cmds| - 1]);
    } else {
      assert s[..|s| - 1] == [];
    }
  }

  lemma {:induction false} PrimaryHostFrom(c: Config, cmds: seq<Command>)
    requires BuildFrom(c, cmds).Success?
    ensures BuildFrom(c, cmds).value.primHost ==
      (if LastPrimary(cmds).Some? then LastPrimary(cmds)
       else if c.primHost.Some? then c.primHost
       else FirstMapped(cmds))
    decreases |cmds|
  {
    if cmds != [] {
      var c' := Apply(c, cmds[0]).value;
      PrimaryHostFrom(c', cmds[1..]);
      LastPrimaryCons(cmds[0], cmds[1..]);
      assert [cmds[0]] + cmds[1..] == cmds;
    }
  }

  /** The primary host is the last explicitly set one; failing that, the first
      host ever mapped (later mappings never displace it); failing that, none. */
  lemma PrimaryHostOfBuild(cmds: seq<Command>)
    requires Build(cmds).Success?
    ensures Build(cmds).value.primHost ==
      (if LastPrimary(cmds).Some? then LastPrimary(cmds) else FirstMapped(cmds))
  {
    PrimaryHostFrom(Empty, cmds);
  }

  /** Remapping a host to another port leaves it listed under its former port
      as well: `invHosts` is not an exact inverse of `hostPort`. */
  lemma StaleInverseEntry(c: Config, h: Host, q: Port)
    requires Valid(c) && h in c.hostPort && IsEven(q) && q != c.hostPort[h]
    ensures var p := c.hostPort[h];
            var r := MapHostToPort(c, h, q);
            && r.Success? && r.value.hostPort[h] == q
            && p in r.value.invHosts && h in r.value.invHosts[p]
  {
  }
}
