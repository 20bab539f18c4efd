/** The system backend: the command sequences that bring the kernel to the configured state, repair
    it, take it down and look at it. */
module Backend {
  import opened Options
  import opened Text
  import opened Addresses
  import opened Kernel
  import opened Config

  // ---------------------------------------------------------------- data

  datatype NetworkStatus = NetworkStatus(iface: string, prefix: PrefixText)

  /** The data plane the daemon last asked for: what teardown has to remove. */
  datatype AppliedState = AppliedState(
    wanInterface: string, remoteEndpoint: string, localIPv6: PrefixText, lanEnabled: bool, networks: seq<NetworkStatus>)

  const NOTHING_APPLIED: AppliedState := AppliedState("", "", NoPrefix(""), false, [])

  function StatusOf(ns: seq<NetworkConfig>): (r: seq<NetworkStatus>)
    ensures |r| == |ns|
    ensures forall i :: 0 <= i < |ns| ==> r[i] == NetworkStatus(ns[i].iface, ns[i].prefix)
  {
    seq(|ns|, i requires 0 <= i < |ns| => NetworkStatus(ns[i].iface, ns[i].prefix))
  }

  function BuildApplied(c: Config): AppliedState {
    AppliedState(c.server.wanInterface, c.tunnel.remoteEndpoint, c.tunnel.localIPv6, c.lan.enabled, StatusOf(c.lan.networks))
  }

  datatype Failure =
    | CommandFailed(cmd: Command)
    | AddressesUnreadable(dev: string)
    | NoWANAddress(dev: string)
    | MTUUnreadable(dev: string)
    | MTUBelowMinimum(mtu: int)
    | PrefixUnparsable(text: PrefixText)      // by the address query
    | GatewayUnparsable(text: PrefixText)     // by the gateway arithmetic
    | SourceUnparsable(text: PrefixText)      // by the choice of the route source

  datatype Outcome = Outcome(world: World, err: Option<Failure>)

  datatype Reading<T> = Reading(world: World, value: Option<T>, err: Option<Failure>)

  datatype AddressState = Missing | Healthy | Unhealthy

  datatype MissingAddress = MissingAddress(dev: string, text: PrefixText, unhealthy: bool)

  datatype Observation = Observation(tunnelUp: bool, wan4: string, missing: seq<MissingAddress>)

  datatype Observed = Observed(world: World, observation: Observation, err: Option<Failure>)

  // ---------------------------------------------------------------- single commands

  function Run(w: World, c: Command): Outcome {
    var d := Exec(w, c);
    Outcome(d.world, if d.ok then None else Some(CommandFailed(c)))
  }

  /** Runs commands up to and including the first that fails. */
  function RunAll(w: World, cs: seq<Command>): Outcome
    decreases |cs|
  {
    if cs == [] then Outcome(w, None)
    else
      var o := Run(w, cs[0]);
      if o.err.None? then RunAll(o.world, cs[1..]) else o
  }

  // ---------------------------------------------------------------- teardown

  const FIREWALL_TEARDOWN: seq<Command> := [
    Tables(DeleteJump(InputChain)), Tables(FlushChain(InputChain)), Tables(DeleteChain(InputChain)),
    Tables(DeleteJump(ForwardChain)), Tables(FlushChain(ForwardChain)), Tables(DeleteChain(ForwardChain)),
    Tables(DeleteJump(MssChain)), Tables(FlushChain(MssChain)), Tables(DeleteChain(MssChain))]

  const TUNNEL_TEARDOWN: seq<Command> := [Routing(Route6Del), Tunnel(TunnelDel)]

  /** Deletes the gateway address of every network whose prefix parses. */
  function AddressTeardown(ns: seq<NetworkStatus>): seq<Command> {
    if ns == [] then []
    else
      (match GatewayForPrefix(ns[0].prefix)
       case None => []
       case Some(text) => [Addr(AddrDel(ns[0].iface, text))])
      + AddressTeardown(ns[1..])
  }

  function RouteTeardown(a: AppliedState): seq<Command> {
    if a.remoteEndpoint != "" && a.wanInterface != ""
    then [Routing(RouteDel(a.remoteEndpoint, a.wanInterface))] else []
  }

  function TeardownScript(a: AppliedState): seq<Command> {
    FIREWALL_TEARDOWN + AddressTeardown(a.networks) + RouteTeardown(a) + TUNNEL_TEARDOWN
  }

  function Teardown(w: World, a: AppliedState): World {
    BestEffort(w, TeardownScript(a))
  }

  // ---------------------------------------------------------------- reading

  function ReadWAN4(w: World, dev: string): Reading<string> {
    var d := Exec(w, Read(ShowAddr4(dev)));
    if d.ok && dev in d.world.kernel.net.wan4
    then Reading(d.world, Some(d.world.kernel.net.wan4[dev]), None)
    else Reading(d.world, None, Some(NoWANAddress(dev)))
  }

  const TUNNEL_OVERHEAD: int := 20
  const MINIMUM_IPV6_MTU: int := 1280

  /** A configured MTU is taken as it is; otherwise it is the WAN's, less the IPv4 header. */
  function ResolveMTU(w: World, configured: int, wan: string): Reading<int> {
    if configured > 0 then Reading(w, Some(configured), None)
    else
      var d := Exec(w, Read(ShowLink(wan)));
      if !d.ok || wan !in d.world.kernel.net.links then Reading(d.world, None, Some(MTUUnreadable(wan)))
      else
        var mtu := d.world.kernel.net.links[wan] - TUNNEL_OVERHEAD;
        if mtu < MINIMUM_IPV6_MTU then Reading(d.world, None, Some(MTUBelowMinimum(mtu)))
        else Reading(d.world, Some(mtu), None)
  }

  function StateOf(n: Network, dev: string, p: Prefix): AddressState {
    if (dev, p) !in n.addrs then Missing else if n.addrs[(dev, p)] then Healthy else Unhealthy
  }

  /** queryInterfaceIPv6Address: parses the text, then lists the device's addresses. */
  function QueryAddress(w: World, dev: string, text: PrefixText): Reading<AddressState> {
    match text.Parse()
    case None => Reading(w, None, Some(PrefixUnparsable(text)))
    case Some(p) =>
      var d := Exec(w, Read(ShowAddr6(dev)));
      if d.ok then Reading(d.world, Some(StateOf(d.world.kernel.net, dev, p)), None)
      else Reading(d.world, None, Some(AddressesUnreadable(dev)))
  }

  // ---------------------------------------------------------------- addresses

  /** Leaves a healthy address alone, replaces an unusable one, adds a missing one. */
  function EnsureAddress(w: World, dev: string, text: PrefixText): Outcome {
    var q := QueryAddress(w, dev, text);
    if q.err.Some? then Outcome(q.world, q.err)
    else if q.value == Some(Healthy) then Outcome(q.world, None)
    else if q.value == Some(Unhealthy) then RunAll(q.world, [Addr(AddrDel(dev, text)), Addr(AddrAdd(dev, text))])
    else RunAll(q.world, [Addr(AddrAdd(dev, text))])
  }

  /** Turns duplicate address detection off; resets IPv6 on the device if a link-local address is
      broken, which wipes all its addresses. */
  function ReadyInterface(w: World, dev: string): Outcome {
    var a := Run(w, Addr(AcceptDadOff(dev)));
    if a.err.Some? then a
    else
      var d := Exec(a.world, Read(ShowAddr6(dev)));
      if !d.ok then Outcome(d.world, Some(AddressesUnreadable(dev)))
      else if !d.world.kernel.net.BrokenLinkLocal(dev) then Outcome(d.world, None)
      else RunAll(d.world, [Addr(DisableIPv6(dev)), Addr(EnableIPv6(dev))])
  }

  /** One LAN network: the device is made ready the first time it is seen. */
  function ReadyNetwork(w: World, n: NetworkConfig, managed: set<string>): Outcome {
    var r := if n.iface in managed then Outcome(w, None) else ReadyInterface(w, n.iface);
    if r.err.Some? then r
    else
      match GatewayForPrefix(n.prefix)
      case None => Outcome(r.world, Some(GatewayUnparsable(n.prefix)))
      case Some(text) => EnsureAddress(r.world, n.iface, text)
  }

  function ReadyNetworks(w: World, ns: seq<NetworkConfig>, managed: set<string>): Outcome
    decreases |ns|
  {
    if ns == [] then Outcome(w, None)
    else
      var o := ReadyNetwork(w, ns[0], managed);
      if o.err.Some? then o else ReadyNetworks(o.world, ns[1..], managed + {ns[0].iface})
  }

  /** One LAN network, without touching the device. */
  function RepairNetwork(w: World, n: NetworkConfig): Outcome {
    match GatewayForPrefix(n.prefix)
    case None => Outcome(w, Some(GatewayUnparsable(n.prefix)))
    case Some(text) => EnsureAddress(w, n.iface, text)
  }

  function RepairNetworks(w: World, ns: seq<NetworkConfig>): Outcome
    decreases |ns|
  {
    if ns == [] then Outcome(w, None)
    else
      var o := RepairNetwork(w, ns[0]);
      if o.err.Some? then o else RepairNetworks(o.world, ns[1..])
  }

  function RepairAddresses(w: World, c: Config): Outcome {
    if !c.tunnel.enabled then Outcome(w, None)
    else
      var o := EnsureAddress(w, TUNNEL, c.tunnel.localIPv6);
      if o.err.Some? || !c.lan.enabled then o else RepairNetworks(o.world, c.lan.networks)
  }

  // ---------------------------------------------------------------- default route

  datatype SourceChoice = BadSource(failure: Failure) | NoSource | Source(address: Address)

  function SourceOfText(text: PrefixText): SourceChoice {
    match text.Parse()
    case None => BadSource(SourceUnparsable(text))
    case Some(p) => if IsPreferredSource(p.addr) then Source(p.addr) else NoSource
  }

  function SourceOfNetworks(ns: seq<NetworkConfig>): SourceChoice {
    if ns == [] then NoSource
    else
      match GatewayForPrefix(ns[0].prefix)
      case None => BadSource(GatewayUnparsable(ns[0].prefix))
      case Some(text) =>
        var s := SourceOfText(text);
        if s.NoSource? then SourceOfNetworks(ns[1..]) else s
  }

  /** The tunnel's address if it may be used, else the first gateway that may; LAN networks count
      even while LAN is disabled. */
  function SelectSource(c: Config): SourceChoice {
    var s := SourceOfText(c.tunnel.localIPv6);
    if s.NoSource? then SourceOfNetworks(c.lan.networks) else s
  }

  // ---------------------------------------------------------------- firewall

  function RulesOf(chain: Chain, wan: string): seq<Rule> {
    match chain
    case InputChain => [AcceptProtocol41(wan)]
    case ForwardChain => [AcceptEstablishedIn, AcceptOut, DropNewIn]
    case MssChain => [ClampMss]
  }

  function AppendAll(chain: Chain, rules: seq<Rule>): seq<Command> {
    if rules == [] then [] else [Tables(AppendRule(chain, rules[0]))] + AppendAll(chain, rules[1..])
  }

  function EnsureJump(w: World, chain: Chain): World {
    var d := Exec(w, Tables(CheckJump(chain)));
    if d.ok then d.world else Exec(d.world, Tables(InsertJump(chain))).world
  }

  function InstallChain(w: World, chain: Chain, wan: string): World {
    EnsureJump(
      BestEffort(w, [Tables(NewChain(chain)), Tables(FlushChain(chain))] + AppendAll(chain, RulesOf(chain, wan))),
      chain)
  }

  function FirewallUp(w: World, wan: string): World {
    InstallChain(InstallChain(InstallChain(w, InputChain, wan), ForwardChain, wan), MssChain, wan)
  }

  // ---------------------------------------------------------------- reconcile

  function LinkScript(c: Config, wan4: string): seq<Command> {
    [Routing(RouteReplace(c.tunnel.remoteEndpoint, c.server.wanInterface, wan4)),
     Tunnel(TunnelAdd(c.tunnel.remoteEndpoint, wan4, c.tunnel.ttl)),
     Tunnel(LinkSetMtu(c.tunnel.mtu)),
     Tunnel(LinkSetUp)]
  }

  function BringUpLink(w: World, c: Config, wan4: string): Outcome {
    RunAll(BestEffort(w, [Read(Modprobe)]), LinkScript(c, wan4))
  }

  function BringUpAddresses(w: World, c: Config): Outcome {
    var a := EnsureAddress(w, TUNNEL, c.tunnel.localIPv6);
    if a.err.Some? then a
    else
      var f := Run(a.world, Routing(ForwardingOn));
      if f.err.Some? || !c.lan.enabled then f else ReadyNetworks(f.world, c.lan.networks, {})
  }

  function BringUpRoute(w: World, c: Config): Outcome {
    match SelectSource(c)
    case BadSource(failure) => Outcome(w, Some(failure))
    case NoSource => Run(w, Routing(Route6Replace(None)))
    case Source(a) => Run(w, Routing(Route6Replace(Some(a))))
  }

  /** Everything that can fail once the WAN address and the MTU are known. */
  function BringUp(w: World, c: Config, wan4: string): Outcome {
    var l := BringUpLink(w, c, wan4);
    if l.err.Some? then l
    else
      var a := BringUpAddresses(l.world, c);
      if a.err.Some? then a
      else
        var r := BringUpRoute(a.world, c);
        if r.err.Some? then r
        else Outcome(FirewallUp(r.world, c.server.wanInterface), None)
  }

  /** The config comes back with the MTU that was resolved: the caller's own copy is written to. */
  datatype Reconciled = Reconciled(world: World, config: Config, err: Option<Failure>)

  function Establish(w: World, c: Config): Reconciled {
    var ip := ReadWAN4(w, c.server.wanInterface);
    if ip.value.None? then Reconciled(ip.world, c, ip.err)
    else
      var mtu := ResolveMTU(ip.world, c.tunnel.mtu, c.server.wanInterface);
      if mtu.value.None? then Reconciled(mtu.world, c, mtu.err)
      else
        var resolved := c.(tunnel := c.tunnel.(mtu := mtu.value.value));
        var o := BringUp(mtu.world, resolved, ip.value.value);
        Reconciled(o.world, resolved, o.err)
  }

  function Reconcile(w: World, c: Config, valid: bool, applied: AppliedState): Reconciled {
    var down := Teardown(w, applied);
    if !valid || !c.tunnel.enabled then Reconciled(down, c, None) else Establish(down, c)
  }

  // ---------------------------------------------------------------- observation

  function AppendMissing(missing: seq<MissingAddress>, dev: string, text: PrefixText, s: AddressState): seq<MissingAddress> {
    if s.Healthy? then missing else missing + [MissingAddress(dev, text, s.Unhealthy?)]
  }

  function MissingNetworks(w: World, ns: seq<NetworkConfig>, missing: seq<MissingAddress>): Reading<seq<MissingAddress>>
    decreases |ns|
  {
    if ns == [] then Reading(w, Some(missing), None)
    else
      match GatewayForPrefix(ns[0].prefix)
      case None => Reading(w, None, Some(GatewayUnparsable(ns[0].prefix)))
      case Some(text) =>
        var q := QueryAddress(w, ns[0].iface, text);
        if q.value.None? then Reading(q.world, None, q.err)
        else MissingNetworks(q.world, ns[1..], AppendMissing(missing, ns[0].iface, text, q.value.value))
  }

  function CollectMissing(w: World, config: Option<Config>): Reading<seq<MissingAddress>> {
    if config.None? || !config.value.tunnel.enabled then Reading(w, Some([]), None)
    else
      var c := config.value;
      var q := QueryAddress(w, TUNNEL, c.tunnel.localIPv6);
      if q.value.None? then Reading(q.world, None, q.err)
      else
        var missing := AppendMissing([], TUNNEL, c.tunnel.localIPv6, q.value.value);
        if c.lan.enabled then MissingNetworks(q.world, c.lan.networks, missing)
        else Reading(q.world, Some(missing), None)
  }

  function ObserveWAN(w: World, wan: string): Reading<string> {
    if IsBlank(wan) then Reading(w, None, None) else ReadWAN4(w, wan)
  }

  function Observe(w: World, wan: string, config: Option<Config>): Observed {
    var link := Exec(w, Read(ShowLink(TUNNEL)));
    var ip := ObserveWAN(link.world, wan);
    var m := CollectMissing(ip.world, config);
    Observed(m.world,
      Observation(link.ok, if ip.value.Some? then ip.value.value else "", if m.value.Some? then m.value.value else []),
      m.err)
  }

  datatype ProbeResult = ProbeResult(pingOk: bool, pingMs: int)

  datatype Probed = Probed(world: World, result: ProbeResult)

  /** One ping; the route lookup before it only chooses a source address. */
  function Probe(w: World): Probed {
    var looked := Exec(w, Read(RouteGet)).world;
    var ping := Exec(looked, Read(Ping));
    Probed(ping.world, ProbeResult(ping.ok, if ping.ok then looked.fate(looked.now).pingMs else 0))
  }
}
