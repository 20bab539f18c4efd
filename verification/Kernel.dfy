/** The part of the kernel that the daemon manages, and the commands it changes it with.
    A command either takes effect or fails without effect; which commands fail for no reason of
    the kernel's own is decided by an arbitrary oracle. */
module Kernel {
  import opened Options
  import opened Addresses

  const TUNNEL: string := "sit-6in4"
  const TUNNEL_DEFAULT_MTU: int := 1480
  const TUNNEL_MTU_MIN: int := 1280
  const TUNNEL_MTU_MAX: int := 65555

  // ---------------------------------------------------------------- firewall

  /** The three managed chains; each is entered by one jump from its parent chain. */
  datatype Chain = InputChain | ForwardChain | MssChain

  datatype Rule =
    | AcceptProtocol41(wan: string)
    | AcceptEstablishedIn
    | AcceptOut
    | DropNewIn
    | ClampMss

  datatype Firewall = Firewall(chains: map<Chain, seq<Rule>>, jumps: multiset<Chain>) {
    /** A chain that is jumped to exists. */
    ghost predicate Valid() {
      forall c :: c in jumps ==> c in chains
    }
  }

  datatype FirewallCommand =
    | NewChain(chain: Chain)
    | FlushChain(chain: Chain)
    | AppendRule(chain: Chain, rule: Rule)
    | DeleteChain(chain: Chain)
    | CheckJump(chain: Chain)
    | InsertJump(chain: Chain)
    | DeleteJump(chain: Chain)

  function FirewallEffect(fw: Firewall, cmd: FirewallCommand): Option<Firewall> {
    var c := cmd.chain;
    match cmd
    case NewChain(_) => if c in fw.chains then None else Some(fw.(chains := fw.chains[c := []]))
    case FlushChain(_) => if c in fw.chains then Some(fw.(chains := fw.chains[c := []])) else None
    case AppendRule(_, r) => if c in fw.chains then Some(fw.(chains := fw.chains[c := fw.chains[c] + [r]])) else None
    case DeleteChain(_) =>
      if c in fw.chains && fw.chains[c] == [] && c !in fw.jumps then Some(fw.(chains := fw.chains - {c})) else None
    case CheckJump(_) => if c in fw.jumps then Some(fw) else None
    case InsertJump(_) => if c in fw.chains then Some(fw.(jumps := fw.jumps[c := fw.jumps[c] + 1])) else None
    case DeleteJump(_) => if c in fw.jumps then Some(fw.(jumps := fw.jumps[c := fw.jumps[c] - 1])) else None
  }

  // ---------------------------------------------------------------- devices, addresses, routes

  datatype TunnelDevice = TunnelDevice(remote: string, local: string, ttl: int, mtu: int, up: bool)

  datatype Route = Route(dev: string, src: string)

  datatype DefaultRoute = DefaultRoute(src: Option<Address>)

  type AddressTable = map<(string, Prefix), bool>

  datatype Network = Network(
    addrs: AddressTable,                    // address on a device -> usable
    dadOff: set<string>,                    // accept_dad=0
    ipv6Off: set<string>,                   // disable_ipv6=1
    tunnel: Option<TunnelDevice>,
    routes: map<string, Route>,             // host routes, by destination
    default6: Option<DefaultRoute>,         // ::/0 through the tunnel
    forwarding: bool,
    wan4: map<string, string>,              // first IPv4 address of a device
    links: map<string, int>)                // MTU of every device but the tunnel
  {
    predicate HasDevice(dev: string) {
      if dev == TUNNEL then tunnel.Some? else dev in links
    }

    /** Addresses need a device that is there and speaks IPv6; the default route needs the tunnel. */
    ghost predicate Valid() {
      && (forall key <- addrs.Keys :: HasDevice(key.0) && key.0 !in ipv6Off && key.1.addr.is6)
      && (default6.Some? ==> tunnel.Some?)
    }

    /** Some device holds a usable address `a`. */
    predicate Assigned(a: Address) {
      exists key <- addrs.Keys :: key.1.addr == a && addrs[key]
    }

    /** A link-local address of the device failed, or has not finished, duplicate detection. */
    predicate BrokenLinkLocal(dev: string) {
      exists key <- addrs.Keys :: key.0 == dev && IsLinkLocal(key.1.addr) && !addrs[key]
    }
  }

  /** Commands that only read, and loading a module. */
  datatype Query = ShowLink(dev: string) | ShowAddr4(dev: string) | ShowAddr6(dev: string) | RouteGet | Ping | Modprobe

  datatype TunnelCommand =
    | TunnelAdd(remote: string, local: string, ttl: int)
    | TunnelDel
    | LinkSetMtu(mtu: int)
    | LinkSetUp

  datatype AddressCommand =
    | AddrAdd(dev: string, text: PrefixText)
    | AddrDel(dev: string, text: PrefixText)
    | AcceptDadOff(dev: string)
    | DisableIPv6(dev: string)
    | EnableIPv6(dev: string)

  datatype RouteCommand =
    | RouteReplace(endpoint: string, dev: string, src4: string)
    | RouteDel(endpoint: string, dev: string)
    | ForwardingOn
    | Route6Replace(src6: Option<Address>)
    | Route6Del

  /** What the oracle decides about the command run at one instant. */
  datatype Fate = Fate(
    fails: bool,                       // the command fails although the kernel would accept it
    tentative: bool,                   // duplicate detection, where active, leaves the address unusable
    autoconf: map<Prefix, bool>,       // link-local addresses the kernel creates by itself -> usable
    pingOk: bool,
    pingMs: int)

  function WithoutDevice(addrs: AddressTable, dev: string): AddressTable {
    map key | key in addrs && key.0 != dev :: addrs[key]
  }

  function LinkLocals(dev: string, autoconf: map<Prefix, bool>): AddressTable {
    map p | p in autoconf && p.addr.is6 && IsLinkLocal(p.addr) :: (dev, p) := autoconf[p]
  }

  predicate Answers(n: Network, q: Query, f: Fate) {
    match q
    case ShowLink(dev) => n.HasDevice(dev)
    case ShowAddr4(dev) => n.HasDevice(dev)
    case ShowAddr6(dev) => n.HasDevice(dev)
    case RouteGet => n.default6.Some?
    case Ping => f.pingOk
    case Modprobe => true
  }

  function TunnelEffect(n: Network, c: TunnelCommand, f: Fate): Option<Network> {
    match c
    case TunnelAdd(remote, local, ttl) =>
      if n.tunnel.None? && 1 <= ttl <= 255
      then Some(n.(tunnel := Some(TunnelDevice(remote, local, ttl, TUNNEL_DEFAULT_MTU, false)),
                   addrs := WithoutDevice(n.addrs, TUNNEL),
                   dadOff := n.dadOff - {TUNNEL}, ipv6Off := n.ipv6Off - {TUNNEL}))
      else None
    case TunnelDel =>
      if n.tunnel.Some?
      then Some(n.(tunnel := None, default6 := None, addrs := WithoutDevice(n.addrs, TUNNEL)))
      else None
    case LinkSetMtu(mtu) =>
      if n.tunnel.Some? && TUNNEL_MTU_MIN <= mtu <= TUNNEL_MTU_MAX
      then Some(n.(tunnel := Some(n.tunnel.value.(mtu := mtu)))) else None
    case LinkSetUp =>
      if n.tunnel.Some?
      then Some(n.(tunnel := Some(n.tunnel.value.(up := true)),
                   addrs := if TUNNEL in n.ipv6Off then n.addrs else LinkLocals(TUNNEL, f.autoconf) + n.addrs))
      else None
  }

  function AddressEffect(n: Network, c: AddressCommand, f: Fate): Option<Network> {
    match c
    case AddrAdd(dev, text) =>
      (match text.Parse()
       case None => None
       case Some(p) =>
         if p.addr.is6 && n.HasDevice(dev) && dev !in n.ipv6Off && (dev, p) !in n.addrs
         then Some(n.(addrs := n.addrs[(dev, p) := dev == TUNNEL || dev in n.dadOff || !f.tentative]))
         else None)
    case AddrDel(dev, text) =>
      (match text.Parse()
       case None => None
       case Some(p) => if (dev, p) in n.addrs then Some(n.(addrs := n.addrs - {(dev, p)})) else None)
    case AcceptDadOff(dev) => if n.HasDevice(dev) then Some(n.(dadOff := n.dadOff + {dev})) else None
    case DisableIPv6(dev) =>
      if n.HasDevice(dev) then Some(n.(ipv6Off := n.ipv6Off + {dev}, addrs := WithoutDevice(n.addrs, dev))) else None
    case EnableIPv6(dev) =>
      if !n.HasDevice(dev) then None
      else if dev !in n.ipv6Off then Some(n)
      else Some(n.(ipv6Off := n.ipv6Off - {dev}, addrs := LinkLocals(dev, f.autoconf) + n.addrs))
  }

  function RouteEffect(n: Network, c: RouteCommand): Option<Network> {
    match c
    case RouteReplace(endpoint, dev, src) =>
      if n.HasDevice(dev) then Some(n.(routes := n.routes[endpoint := Route(dev, src)])) else None
    case RouteDel(endpoint, dev) =>
      if endpoint in n.routes && n.routes[endpoint].dev == dev then Some(n.(routes := n.routes - {endpoint})) else None
    case ForwardingOn => Some(n.(forwarding := true))
    case Route6Replace(src) =>
      if n.tunnel.Some? && n.tunnel.value.up && (src.Some? ==> n.Assigned(src.value))
      then Some(n.(default6 := Some(DefaultRoute(src)))) else None
    case Route6Del => if n.default6.Some? then Some(n.(default6 := None)) else None
  }

  // ---------------------------------------------------------------- commands

  datatype Kernel = Kernel(net: Network, fw: Firewall) {
    ghost predicate Valid() {
      net.Valid() && fw.Valid()
    }
  }

  datatype Command =
    | Read(query: Query)
    | Tunnel(tunnel: TunnelCommand)
    | Addr(address: AddressCommand)
    | Routing(route: RouteCommand)
    | Tables(firewall: FirewallCommand)

  function NetworkEffect(n: Network, c: Command, f: Fate): Option<Network>
    requires !c.Tables?
  {
    match c
    case Read(q) => if Answers(n, q, f) then Some(n) else None
    case Tunnel(t) => TunnelEffect(n, t, f)
    case Addr(a) => AddressEffect(n, a, f)
    case Routing(r) => RouteEffect(n, r)
  }

  /** The kernel after a command it accepts; None when it refuses. */
  function Effect(k: Kernel, c: Command, f: Fate): Option<Kernel> {
    if c.Tables? then
      match FirewallEffect(k.fw, c.firewall)
      case None => None
      case Some(fw) => Some(k.(fw := fw))
    else
      match NetworkEffect(k.net, c, f)
      case None => None
      case Some(n) => Some(k.(net := n))
  }

  /** A kernel object the daemon put there: a LAN address or a host route to an endpoint. */
  datatype Item = LanAddress(dev: string, prefix: Prefix) | EndpointRoute(dev: string, endpoint: string)

  /** The item is in the kernel. */
  predicate Present(n: Network, item: Item) {
    match item
    case LanAddress(dev, p) => (dev, p) in n.addrs
    case EndpointRoute(dev, endpoint) => endpoint in n.routes && n.routes[endpoint].dev == dev
  }

  /** What the daemon adds by running a command. Addresses of the tunnel device live and die with it. */
  function Creates(c: Command): set<Item> {
    match c
    case Routing(RouteReplace(endpoint, dev, _)) => {EndpointRoute(dev, endpoint)}
    case Addr(AddrAdd(dev, text)) =>
      if text.Parse().Some? && dev != TUNNEL then {LanAddress(dev, text.Parse().value)} else {}
    case _ => {}
  }

  /** The kernel, what the daemon installed in it and is still there, the clock and the oracle. */
  datatype World = World(kernel: Kernel, owned: set<Item>, now: nat, fate: nat -> Fate) {
    ghost predicate Valid() {
      && kernel.Valid()
      && forall item <- owned :: Present(kernel.net, item) && (item.LanAddress? ==> item.dev != TUNNEL)
    }

    /** From now on no command fails unless the kernel refuses it. */
    ghost predicate Calm() {
      forall t: nat {:trigger fate(t)} :: t >= now ==> !fate(t).fails
    }
  }

  datatype Done = Done(world: World, ok: bool)

  /** One command: the oracle may make it fail, the kernel may refuse it, or it takes effect. */
  function Exec(w: World, c: Command): Done {
    var f := w.fate(w.now);
    var effect := Effect(w.kernel, c, f);
    if f.fails || effect.None?
    then Done(w.(now := w.now + 1), false)
    else
      var k := effect.value;
      Done(World(k, (set item <- w.owned | Present(k.net, item)) + Creates(c), w.now + 1, w.fate), true)
  }

  /** Runs all commands, ignoring failures. */
  function BestEffort(w: World, cs: seq<Command>): World
    decreases |cs|
  {
    if cs == [] then w else BestEffort(Exec(w, cs[0]).world, cs[1..])
  }

  // ---------------------------------------------------------------- what every command keeps

  /** The oracle, the IPv4 addresses and the devices are not the daemon's to change. */
  ghost predicate SameSurroundings(w: World, w': World) {
    && w'.fate == w.fate
    && w.now <= w'.now
    && w'.kernel.net.wan4 == w.kernel.net.wan4
    && w'.kernel.net.links == w.kernel.net.links
  }

  lemma TunnelEffectKeeps(n: Network, c: TunnelCommand, f: Fate)
    requires n.Valid() && TunnelEffect(n, c, f).Some?
    ensures var n' := TunnelEffect(n, c, f).value;
            n'.Valid() && n'.wan4 == n.wan4 && n'.links == n.links
  {
  }

  lemma AddressEffectKeeps(n: Network, c: AddressCommand, f: Fate)
    requires n.Valid() && AddressEffect(n, c, f).Some?
    ensures var n' := AddressEffect(n, c, f).value;
            n'.Valid() && n'.wan4 == n.wan4 && n'.links == n.links
  {
  }

  lemma RouteEffectKeeps(n: Network, c: RouteCommand)
    requires n.Valid() && RouteEffect(n, c).Some?
    ensures var n' := RouteEffect(n, c).value;
            n'.Valid() && n'.wan4 == n.wan4 && n'.links == n.links
  {
  }

  lemma {:induction false} NetworkEffectKeeps(n: Network, c: Command, f: Fate)
    requires !c.Tables? && n.Valid() && NetworkEffect(n, c, f).Some?
    ensures var n' := NetworkEffect(n, c, f).value;
            n'.Valid() && n'.wan4 == n.wan4 && n'.links == n.links
  {
    match c
    case Read(_) =>
    case Tunnel(t) => TunnelEffectKeeps(n, t, f);
    case Addr(a) => AddressEffectKeeps(n, a, f);
    case Routing(r) => RouteEffectKeeps(n, r);
    hide TunnelEffect, AddressEffect, RouteEffect, Network.Valid;
  }

  lemma CreatedIsPresent(k: Kernel, c: Command, f: Fate)
    requires Effect(k, c, f).Some?
    ensures forall item <- Creates(c) :: Present(Effect(k, c, f).value.net, item)
  {
  }

  lemma {:induction false} EffectKeeps(k: Kernel, c: Command, f: Fate)
    requires k.Valid() && Effect(k, c, f).Some?
    ensures var k' := Effect(k, c, f).value;
            && k'.Valid()
            && k'.net.wan4 == k.net.wan4
            && k'.net.links == k.net.links
  {
    if !c.Tables? {
      hide Network.Valid, Firewall.Valid, NetworkEffect;
      NetworkEffectKeeps(k.net, c, f);
    }
  }

  /** Every command, whatever happens to it, keeps the world consistent; what the daemon owns
      afterwards it owned before or has just created. */
  lemma {:induction false} ExecKeeps(w: World, c: Command)
    requires w.Valid()
    ensures var w' := Exec(w, c).world;
            && w'.Valid()
            && SameSurroundings(w, w')
            && (w.Calm() ==> w'.Calm())
            && w'.owned <= w.owned + Creates(c)
  {
    var f := w.fate(w.now);
    if Effect(w.kernel, c, f).Some? {
      EffectKeeps(w.kernel, c, f);
      CreatedIsPresent(w.kernel, c, f);
    }
    CreatesLanItems(c);
    hide Effect, Present, Creates, Kernel.Valid;
  }

  lemma CreatesLanItems(c: Command)
    ensures forall item <- Creates(c) :: item.LanAddress? ==> item.dev != TUNNEL
  {
  }

  lemma {:induction false} BestEffortKeeps(w: World, cs: seq<Command>)
    requires w.Valid()
    ensures var w' := BestEffort(w, cs);
            && w'.Valid()
            && SameSurroundings(w, w')
            && (w.Calm() ==> w'.Calm())
    decreases |cs|
  {
    hide Exec, World.Valid, World.Calm;
    if cs != [] {
      ExecKeeps(w, cs[0]);
      BestEffortKeeps(Exec(w, cs[0]).world, cs[1..]);
    }
  }

  lemma {:induction false} BestEffortAppend(w: World, a: seq<Command>, b: seq<Command>)
    ensures BestEffort(w, a + b) == BestEffort(BestEffort(w, a), b)
    decreases |a|
  {
    hide Exec;
    if a == [] {
      assert a + b == b;
    } else {
      assert (a + b)[1..] == a[1..] + b;
      BestEffortAppend(Exec(w, a[0]).world, a[1..], b);
    }
  }
}
