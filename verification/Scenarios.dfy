/** Concrete runs of the daemon on a small host, followed command by command: each is one on which a
    promise fails, at the instants that the exact conditions name. */
module Scenarios {
  import opened Options
  import opened Text
  import opened Addresses
  import opened Kernel
  import opened Config
  import opened ConfigLaws
  import opened Backend
  import opened AddressLaws
  import opened TeardownLaws
  import opened FirewallLaws
  import opened LinkLaws
  import opened ReconcileLaws
  import opened LanLaws
  import opened Convergence
  import opened RepairLaws
  import opened JumpLaws
  import opened ChainLaws
  import opened Limits

  // ---------------------------------------------------------------- the host and its config

  const WAN: string := DEFAULT_WAN_INTERFACE
  const WAN_IP: string := "192.0.2.1"
  const ENDPOINT: string := "1.2.3.4"

  lemma SmallPowers()
    ensures Pow2(2) == 4 && Pow2(3) == 8 && Pow2(6) == 64 && Pow2(8) == 0x100 && Pow2(16) == 0x1_0000
  {
  }

  lemma {:induction false} LargePowers()
    ensures Pow2(118) == 0x0040_0000_0000_0000_0000_0000_0000_0000
    ensures Pow2(120) == 0x0100_0000_0000_0000_0000_0000_0000_0000
    ensures Pow2(121) == 0x0200_0000_0000_0000_0000_0000_0000_0000
    ensures Pow2(128) == 0x1_0000_0000_0000_0000_0000_0000_0000_0000
  {
    hide Pow2;
    SmallPowers();
    Pow2Add(16, 16);
    Pow2Add(32, 32);
    Pow2Add(64, 32);
    Pow2Add(96, 16);
    Pow2Add(112, 6);
    Pow2Add(118, 2);
    Pow2Add(118, 3);
    Pow2Add(120, 8);
  }

  /** fd00::1/64. */
  const LOCAL: Prefix :=
    (LargePowers(); Prefix.Prefix(Address(true, 0xFD00_0000_0000_0000_0000_0000_0000_0001), 64))

  /** A host with a WAN device and nothing of the daemon's. */
  const HOST: Network := Network(map[], {}, {}, None, map[], None, false, map[WAN := WAN_IP], map[WAN := 1500])

  /** A tunnel without LAN and without probes. */
  const SERVICE: Config :=
    BLANK_CONFIG.(
      tunnel := TunnelConfig(true, BROKER_CUSTOM, ENDPOINT, PrefixText(LOCAL), "", DEFAULT_TTL, 1480),
      health := BLANK_CONFIG.health.(enabled := false))

  lemma ServiceHasDefaults()
    ensures ConfigDefaults(SERVICE) == SERVICE && GoodServer(SERVICE.server)
  {
    assert !IsSpace(BROKER_CUSTOM[0]) && !IsSpace(DEFAULT_LAN_MODE[0]) && !IsSpace(DEFAULT_WAN_INTERFACE[0]);
    hide IsSpace;
  }

  lemma ServiceIsValid()
    ensures ValidConfig(SERVICE)
  {
    hide ValidConfig, IsIPv4, IsSpace, IsBlank, IsIPv6Address, GoodServer, ProfileDefaults, ConfigDefaults;
    PaddedEndpoint();
    ServiceHasDefaults();
    ServiceProfile();
    ValidConfigIff(SERVICE);
  }

  lemma ServiceProfile()
    ensures ProfileDefaults(ProfilePart(SERVICE)) == ProfilePart(SERVICE)
  {
    ServiceHasDefaults();
    hide IsBlank;
  }

  // ---------------------------------------------------------------- following commands

  /** `k` commands after `w0`, the firewall untouched. */
  ghost predicate At(w0: World, k: nat, n: Network, w: World) {
    w.kernel == Kernel(n, w0.kernel.fw) && w.now == w0.now + k && w.fate == w0.fate
  }

  lemma Next(w0: World, k: nat, n: Network, w: World, cmd: Command, n': Network, item: Item)
    requires At(w0, k, n, w) && !cmd.Tables? && !w0.fate(w0.now + k).fails
    requires NetworkEffect(n, cmd, w0.fate(w0.now + k)) == Some(n')
    ensures Run(w, cmd) == Outcome(Exec(w, cmd).world, None) && Exec(w, cmd).ok
    ensures At(w0, k + 1, n', Run(w, cmd).world)
    ensures Present(n', item) && (item in w.owned || item in Creates(cmd)) ==> item in Run(w, cmd).world.owned
  {
    hide NetworkEffect, Present, Creates;
  }

  lemma Refused(w0: World, k: nat, n: Network, w: World, cmd: Command)
    requires At(w0, k, n, w) && !cmd.Tables? && NetworkEffect(n, cmd, w0.fate(w0.now + k)) == None
    ensures At(w0, k + 1, n, Exec(w, cmd).world)
  {
    hide NetworkEffect, Present, Creates;
  }

  /** Every command of this run works unless the kernel refuses it, for `n` instants from the `k`th on. */
  predicate Works(w0: World, k: nat, n: nat) {
    AllWork(w0.fate, w0.now + k, n)
  }

  // ---------------------------------------------------------------- the link

  const ROUTE: Item := EndpointRoute(WAN, ENDPOINT)

  const ROUTED: Network := HOST.(routes := map[ENDPOINT := Route(WAN, WAN_IP)])

  function Linked(up: bool): Network {
    ROUTED.(tunnel := Some(TunnelDevice(ENDPOINT, WAN_IP, DEFAULT_TTL, 1480, up)))
  }

  /** The tunnel device up, with the addresses the kernel gave it by itself. */
  function Up(autoconf: map<Prefix, bool>): Network {
    Linked(true).(addrs := LinkLocals(TUNNEL, autoconf))
  }

  lemma WANIsNotTheTunnel()
    ensures WAN != TUNNEL
  {
  }

  lemma RouteEffectHere(f: Fate)
    ensures NetworkEffect(HOST, Routing(RouteReplace(ENDPOINT, WAN, WAN_IP)), f) == Some(ROUTED)
    ensures Present(ROUTED, ROUTE) && ROUTE in Creates(Routing(RouteReplace(ENDPOINT, WAN, WAN_IP)))
  {
    WANIsNotTheTunnel();
    assert HOST.routes[ENDPOINT := Route(WAN, WAN_IP)] == ROUTED.routes;
  }

  lemma AddEffectHere(f: Fate)
    ensures NetworkEffect(ROUTED, Tunnel(TunnelAdd(ENDPOINT, WAN_IP, DEFAULT_TTL)), f) == Some(Linked(false))
  {
    assert WithoutDevice(map[], TUNNEL) == map[];
    var empty: set<string> := {};
    assert empty - {TUNNEL} == {};
  }

  lemma MtuEffectHere(f: Fate)
    ensures NetworkEffect(Linked(false), Tunnel(LinkSetMtu(1480)), f) == Some(Linked(false))
  {
  }

  lemma UpEffectHere(f: Fate)
    ensures NetworkEffect(Linked(false), Tunnel(LinkSetUp), f) == Some(Up(f.autoconf))
  {
    hide LinkLocals;
    assert LinkLocals(TUNNEL, f.autoconf) + map[] == LinkLocals(TUNNEL, f.autoconf);
  }

  lemma RouteStays(autoconf: map<Prefix, bool>)
    ensures Present(Linked(false), ROUTE) && Present(Up(autoconf), ROUTE)
  {
  }

  lemma RunFour(w: World, a: Command, b: Command, c: Command, d: Command)
    requires Run(w, a).err.None?
    requires var w1 := Run(w, a).world; var w2 := Run(w1, b).world; var w3 := Run(w2, c).world;
             Run(w1, b).err.None? && Run(w2, c).err.None? && Run(w3, d).err.None?
    ensures var w1 := Run(w, a).world; var w2 := Run(w1, b).world; var w3 := Run(w2, c).world;
            RunAll(w, [a, b, c, d]) == Run(w3, d)
  {
    var w1 := Run(w, a).world;
    var w2 := Run(w1, b).world;
    var w3 := Run(w2, c).world;
    assert [a, b, c, d] == [a] + ([b] + ([c] + ([d] + [])));
    RunAllStep(w, a, [b] + ([c] + ([d] + [])));
    RunAllStep(w1, b, [c] + ([d] + []));
    RunAllStep(w2, c, [d] + []);
    RunAllStep(w3, d, []);
    RunNone(Run(w3, d).world);
    hide RunAll, Run;
  }

  lemma RunNone(w: World)
    ensures RunAll(w, []) == Outcome(w, None)
  {
  }

  lemma {:induction false} LinkRun(w0: World, k: nat, w: World, c: Config)
    requires At(w0, k, HOST, w) && c.tunnel == SERVICE.tunnel && c.server == SERVICE.server && Works(w0, k, 5)
    ensures var o := BringUpLink(w, c, WAN_IP);
            o.err.None? && At(w0, k + 5, Up(w0.fate(w0.now + k + 4).autoconf), o.world) && ROUTE in o.world.owned
  {
    hide Exec, Run, At, NetworkEffect, Present, Creates, Linked, Up, RunAll, BestEffort, LinkScript;
    var route, add, mtu, up :=
      Routing(RouteReplace(ENDPOINT, WAN, WAN_IP)), Tunnel(TunnelAdd(ENDPOINT, WAN_IP, DEFAULT_TTL)), Tunnel(LinkSetMtu(1480)), Tunnel(LinkSetUp);
    ScriptHere(c);
    BestEffortOne(w, Read(Modprobe));
    ModprobeHere(w0, k, w);
    var w1 := Exec(w, Read(Modprobe)).world;
    var autoconf := w0.fate(w0.now + k + 4).autoconf;
    RouteStays(autoconf);
    RouteEffectHere(w0.fate(w0.now + k + 1));
    Next(w0, k + 1, HOST, w1, route, ROUTED, ROUTE);
    var w2 := Run(w1, route).world;
    AddEffectHere(w0.fate(w0.now + k + 2));
    Next(w0, k + 2, ROUTED, w2, add, Linked(false), ROUTE);
    var w3 := Run(w2, add).world;
    MtuEffectHere(w0.fate(w0.now + k + 3));
    Next(w0, k + 3, Linked(false), w3, mtu, Linked(false), ROUTE);
    var w4 := Run(w3, mtu).world;
    UpEffectHere(w0.fate(w0.now + k + 4));
    Next(w0, k + 4, Linked(false), w4, up, Up(autoconf), ROUTE);
    RunFour(w1, route, add, mtu, up);
  }

  lemma ScriptHere(c: Config)
    requires c.tunnel == SERVICE.tunnel && c.server == SERVICE.server
    ensures LinkScript(c, WAN_IP) ==
      [Routing(RouteReplace(ENDPOINT, WAN, WAN_IP)), Tunnel(TunnelAdd(ENDPOINT, WAN_IP, DEFAULT_TTL)), Tunnel(LinkSetMtu(1480)), Tunnel(LinkSetUp)]
  {
  }

  lemma ModprobeHere(w0: World, k: nat, w: World)
    requires At(w0, k, HOST, w)
    ensures At(w0, k + 1, HOST, Exec(w, Read(Modprobe)).world)
  {
  }

  // ---------------------------------------------------------------- addresses and the default route

  function WithAddress(n: Network, p: Prefix): Network {
    n.(addrs := n.addrs[(TUNNEL, p) := true])
  }

  lemma AddAddressHere(n: Network, p: Prefix, f: Fate)
    requires n.tunnel.Some? && TUNNEL !in n.ipv6Off && (TUNNEL, p) !in n.addrs && p.addr.is6
    ensures NetworkEffect(n, Read(ShowAddr6(TUNNEL)), f) == Some(n)
    ensures NetworkEffect(n, Addr(AddrAdd(TUNNEL, PrefixText(p))), f) == Some(WithAddress(n, p))
    ensures Present(n, ROUTE) ==> Present(WithAddress(n, p), ROUTE)
  {
  }

  lemma {:induction false} AddressRun(w0: World, k: nat, n: Network, w: World, p: Prefix)
    requires At(w0, k, n, w) && Works(w0, k, 2)
    requires n.tunnel.Some? && TUNNEL !in n.ipv6Off && (TUNNEL, p) !in n.addrs && p.addr.is6
    requires Present(n, ROUTE) && ROUTE in w.owned
    ensures var o := EnsureAddress(w, TUNNEL, PrefixText(p));
            o.err.None? && At(w0, k + 2, WithAddress(n, p), o.world) && ROUTE in o.world.owned && Present(WithAddress(n, p), ROUTE)
  {
    hide Exec, Run, NetworkEffect, Present, Creates, WithAddress, RunAll;
    AddAddressHere(n, p, w0.fate(w0.now + k));
    AddAddressHere(n, p, w0.fate(w0.now + k + 1));
    Next(w0, k, n, w, Read(ShowAddr6(TUNNEL)), n, ROUTE);
    var q := Exec(w, Read(ShowAddr6(TUNNEL))).world;
    Next(w0, k + 1, n, q, Addr(AddrAdd(TUNNEL, PrefixText(p))), WithAddress(n, p), ROUTE);
    RunOne(q, Addr(AddrAdd(TUNNEL, PrefixText(p))));
  }

  lemma ForwardingHere(n: Network, f: Fate)
    ensures NetworkEffect(n, Routing(ForwardingOn), f) == Some(n.(forwarding := true))
    ensures Present(n, ROUTE) ==> Present(n.(forwarding := true), ROUTE)
  {
  }

  lemma DefaultRouteHere(n: Network, src: Option<Address>, f: Fate)
    requires n.tunnel.Some? && n.tunnel.value.up && (src.Some? ==> n.Assigned(src.value))
    ensures NetworkEffect(n, Routing(Route6Replace(src)), f) == Some(n.(default6 := Some(DefaultRoute(src))))
    ensures Present(n, ROUTE) ==> Present(n.(default6 := Some(DefaultRoute(src))), ROUTE)
  {
  }

  lemma LocalIsUniqueLocal()
    ensures !IsPreferredSource(LOCAL.addr)
    ensures SelectSource(SERVICE) == NoSource
  {
    hide Pow2;
    LargePowers();
  }

  /** The kernel's network part when the service is up. */
  function Served(): Network {
    WithAddress(Up(map[]), LOCAL).(forwarding := true, default6 := Some(DefaultRoute(None)))
  }

  lemma UpIsBare()
    ensures var n := Up(map[]); n.addrs == map[] && n.tunnel.Some? && n.tunnel.value.up && n.ipv6Off == {} && n.dadOff == {}
  {
  }

  lemma {:induction false} AddressesRun(w0: World, k: nat, w: World)
    requires At(w0, k, Up(map[]), w) && Works(w0, k, 3) && ROUTE in w.owned
    ensures var o := BringUpAddresses(w, SERVICE); var n := WithAddress(Up(map[]), LOCAL).(forwarding := true);
            o.err.None? && At(w0, k + 3, n, o.world) && ROUTE in o.world.owned && Present(n, ROUTE)
  {
    hide Exec, Run, NetworkEffect, Present, Creates, Up, At, EnsureAddress;
    UpIsBare();
    RouteStays(map[]);
    AddressRun(w0, k, Up(map[]), w, LOCAL);
    var a := EnsureAddress(w, TUNNEL, PrefixText(LOCAL)).world;
    var n := WithAddress(Up(map[]), LOCAL);
    ForwardingHere(n, w0.fate(w0.now + k + 2));
    hide WithAddress;
    Next(w0, k + 2, n, a, Routing(ForwardingOn), n.(forwarding := true), ROUTE);
  }

  lemma {:induction false} RouteRun(w0: World, k: nat, w: World)
    requires At(w0, k, WithAddress(Up(map[]), LOCAL).(forwarding := true), w) && Works(w0, k, 1) && ROUTE in w.owned
    requires Present(WithAddress(Up(map[]), LOCAL).(forwarding := true), ROUTE)
    ensures var o := BringUpRoute(w, SERVICE);
            o.err.None? && At(w0, k + 1, Served(), o.world) && ROUTE in o.world.owned && Present(Served(), ROUTE)
  {
    hide Exec, Run, NetworkEffect, Present, Creates, Up, At, SelectSource;
    UpIsBare();
    LocalIsUniqueLocal();
    var n := WithAddress(Up(map[]), LOCAL).(forwarding := true);
    DefaultRouteHere(n, None, w0.fate(w0.now + k));
    Next(w0, k, n, w, Routing(Route6Replace(None)), Served(), ROUTE);
  }

  lemma WANHere(f: Fate)
    ensures NetworkEffect(HOST, Read(ShowAddr4(WAN)), f) == Some(HOST)
  {
    WANIsNotTheTunnel();
  }

  lemma {:induction false} WANRun(w0: World, k: nat, w: World)
    requires At(w0, k, HOST, w) && Works(w0, k, 1)
    ensures var r := ReadWAN4(w, WAN); r.value == Some(WAN_IP) && At(w0, k + 1, HOST, r.world)
  {
    hide Exec, Run, NetworkEffect, Present, Creates;
    WANHere(w0.fate(w0.now + k));
    Next(w0, k, HOST, w, Read(ShowAddr4(WAN)), HOST, ROUTE);
  }

  /** An establishing run as its four stages. */
  lemma {:induction false} Stages(w: World, c: Config)
    requires c.tunnel == SERVICE.tunnel && c.server == SERVICE.server
    requires var ip := ReadWAN4(w, WAN); var l := BringUpLink(ip.world, c, WAN_IP); var a := BringUpAddresses(l.world, c);
             ip.value == Some(WAN_IP) && l.err.None? && a.err.None? && BringUpRoute(a.world, c).err.None?
    ensures var l := BringUpLink(ReadWAN4(w, WAN).world, c, WAN_IP).world;
            && Establish(w, c).err.None? && Establish(w, c).config == c
            && BeforeFirewall(w, c) == BringUpRoute(BringUpAddresses(l, c).world, c).world
  {
    hide ReadWAN4, BringUpLink, BringUpAddresses, BringUpRoute, FirewallUp;
    assert WithMTU(c, 1480) == c;
  }

  /** From a bare host, with no command failing, everything but the firewall is in place ten instants later. */
  lemma {:induction false} ServiceRun(w0: World, k: nat, w: World)
    requires w.Valid() && At(w0, k, HOST, w) && Works(w0, k, 10) && w0.fate(w0.now + k + 5).autoconf == map[]
    ensures Establish(w, SERVICE).err.None? && Establish(w, SERVICE).config == SERVICE
    ensures var ready := BeforeFirewall(w, SERVICE);
            At(w0, k + 10, Served(), ready) && ROUTE in ready.owned && Present(Served(), ROUTE)
  {
    hide World.Valid, Exec, Run, NetworkEffect, Present, Creates, Up, At, ReadWAN4, BringUpLink, BringUpAddresses,
         BringUpRoute, FirewallUp, Served, WithAddress, Establish, BeforeFirewall;
    WANRun(w0, k, w);
    var ip := ReadWAN4(w, WAN).world;
    LinkRun(w0, k + 1, ip, SERVICE);
    var l := BringUpLink(ip, SERVICE, WAN_IP).world;
    AddressesRun(w0, k + 6, l);
    var a := BringUpAddresses(l, SERVICE).world;
    RouteRun(w0, k + 9, a);
    Stages(w, SERVICE);
  }

  // ---------------------------------------------------------------- a whole reconcile

  lemma NothingLeftHere(f: Fate)
    ensures NetworkEffect(HOST, Routing(Route6Del), f) == None && NetworkEffect(HOST, Tunnel(TunnelDel), f) == None
    ensures AddressTeardown(NOTHING_APPLIED.networks) + RouteTeardown(NOTHING_APPLIED) + TUNNEL_TEARDOWN == [Routing(Route6Del), Tunnel(TunnelDel)]
  {
  }

  /** With nothing recorded, a teardown runs eleven commands; on a bare host only the firewall feels them. */
  lemma {:induction false} HostTeardown(w: World)
    requires w.Valid() && w.kernel.net == HOST
    ensures var down := Teardown(w, NOTHING_APPLIED);
            down.Valid() && down.kernel.net == HOST && down.now == w.now + 11 && down.fate == w.fate
  {
    hide World.Valid, BestEffort, Exec, NetworkEffect, Teardown, AddressTeardown, RouteTeardown, At;
    var r6, del := Routing(Route6Del), Tunnel(TunnelDel);
    TeardownReduces(w, NOTHING_APPLIED);
    ReducedValid(w, Teardown(w, NOTHING_APPLIED));
    TeardownSplit(w, NOTHING_APPLIED);
    var f := BestEffort(w, FIREWALL_TEARDOWN);
    BestEffortTables(w, FIREWALL_TEARDOWN);
    FirewallTeardownJumps(w, InputChain);
    NothingLeftHere(f.fate(f.now));
    NothingLeftHere(f.fate(f.now + 1));
    assert At(f, 0, HOST, f) by {
      AtStart(f);
    }
    Refused(f, 0, HOST, f, r6);
    Refused(f, 1, HOST, Exec(f, r6).world, del);
    assert [r6, del] == [r6] + [del];
    BestEffortAppend(f, [r6], [del]);
    BestEffortOne(f, r6);
    BestEffortOne(Exec(f, r6).world, del);
    AtMeans(f, 2, HOST, BestEffort(f, [r6, del]));
  }

  lemma AtStart(w: World)
    ensures At(w, 0, w.kernel.net, w)
  {
  }

  lemma AtMeans(w0: World, k: nat, n: Network, w: World)
    requires At(w0, k, n, w)
    ensures w.kernel.net == n && w.kernel.fw == w0.kernel.fw && w.now == w0.now + k && w.fate == w0.fate
  {
  }

  /** What a reconcile for the service has reached when it turns to the firewall. */
  function Prepared(w: World): World {
    BeforeFirewall(Teardown(w, NOTHING_APPLIED), SERVICE)
  }

  /** On a bare host a reconcile for the service reports success if the ten commands from the eleventh
      instant on work; the commands before and after these are best-effort. */
  lemma {:induction false} HostReconcile(w: World)
    requires w.Valid() && w.kernel.net == HOST && AllWork(w.fate, w.now + 11, 10) && w.fate(w.now + 16).autoconf == map[]
    ensures var r := Reconcile(w, SERVICE, true, NOTHING_APPLIED); var ready := Prepared(w);
            && r.err.None? && r.config == SERVICE && r.world == FirewallUp(ready, WAN)
            && ready.Valid() && ready.now == w.now + 21 && ready.fate == w.fate && ready.kernel.net == Served() && ROUTE in ready.owned
            && ready.kernel.fw == Teardown(w, NOTHING_APPLIED).kernel.fw
  {
    hide World.Valid, Teardown, Establish, BeforeFirewall, FirewallUp, At, Served, AllWork, Present;
    HostTeardown(w);
    var down := Teardown(w, NOTHING_APPLIED);
    AtStart(down);
    ServiceRun(down, 0, down);
    AtMeans(down, 10, Served(), BeforeFirewall(down, SERVICE));
    EstablishBefore(down, SERVICE);
  }

  // ---------------------------------------------------------------- two jumps

  /** One chain with its one jump. The first command fails, and the one that checks for the jump. */
  const ONE_JUMP: World :=
    World(Kernel(HOST, Firewall(map[InputChain := []], multiset{InputChain})), {}, 0,
      (t: nat) => Fate(t == 0 || t == 24, false, map[], true, 0))

  lemma OneJumpIsValid()
    ensures ONE_JUMP.Valid() && ONE_JUMP.kernel.net == HOST && ONE_JUMP.kernel.fw.jumps[InputChain] == 1
    ensures AllWork(ONE_JUMP.fate, 11, 10) && ONE_JUMP.fate(16).autoconf == map[]
    ensures ONE_JUMP.fate(0).fails && ONE_JUMP.fate(24).fails && !ONE_JUMP.fate(25).fails
  {
  }

  /** A reconcile that starts with one jump to the input chain, reports success, and ends with two. */
  lemma {:induction false} TwoJumps()
    ensures ONE_JUMP.Valid() && ONE_JUMP.kernel.fw.jumps[InputChain] == 1 && ValidConfig(SERVICE)
    ensures var r := Reconcile(ONE_JUMP, SERVICE, true, NOTHING_APPLIED);
            r.err.None? && r.world.kernel.fw.jumps[InputChain] == 2
  {
    hide World.Valid, Teardown, Reconcile, FirewallUp, Prepared, AllWork, ValidConfig, Present, Served;
    OneJumpIsValid();
    ServiceIsValid();
    HostReconcile(ONE_JUMP);
    TeardownJumps(ONE_JUMP, NOTHING_APPLIED, InputChain);
    FailedCheck(Prepared(ONE_JUMP), WAN);
  }

  // ---------------------------------------------------------------- a forward chain without its drop rule

  /** No chains. The thirty-first command fails: it appends the third rule of the forward chain. */
  const NO_CHAINS: World :=
    World(Kernel(HOST, Firewall(map[], multiset{})), {}, 0, (t: nat) => Fate(t == 30, false, map[], true, 0))

  lemma NoChainsIsValid()
    ensures NO_CHAINS.Valid() && NO_CHAINS.kernel.net == HOST && NO_CHAINS.now == 0
    ensures AllWork(NO_CHAINS.fate, 11, 10) && NO_CHAINS.fate(16).autoconf == map[]
    ensures forall t: nat {:trigger NO_CHAINS.fate(t)} :: NO_CHAINS.fate(t).fails <==> t == 30
    ensures forall d: Chain :: NO_CHAINS.kernel.fw.jumps[d] == 0 && d !in NO_CHAINS.kernel.fw.chains
  {
  }

  /** A chain that no one jumps to takes four commands and one per rule to install, the check for the jump
      finding none. */
  lemma {:induction false} InstallTakes(w: World, d: Chain, wan: string)
    requires w.kernel.fw.jumps[d] == 0
    ensures InstallChain(w, d, wan).now == w.now + 4 + |RulesOf(d, wan)|
  {
    hide RulesOf, BestEffort, EnsureJump, ViewOf, FilledContent;
    FilledView(w, d, wan);
    FilledSpares(w, d, wan, d);
    CheckTakesTwo(Filled(w, d, wan), d);
  }

  lemma CheckTakesTwo(w: World, d: Chain)
    requires w.kernel.fw.jumps[d] == 0
    ensures EnsureJump(w, d).now == w.now + 2
  {
  }

  /** A reconcile that reports success and leaves the forward chain without the rule that drops what was
      not asked for. */
  lemma {:induction false} NoDropRule()
    ensures NO_CHAINS.Valid() && ValidConfig(SERVICE)
    ensures var r := Reconcile(NO_CHAINS, SERVICE, true, NOTHING_APPLIED);
            && r.err.None?
            && ForwardChain in r.world.kernel.fw.chains
            && r.world.kernel.fw.chains[ForwardChain] == [AcceptEstablishedIn, AcceptOut]
  {
    hide World.Valid, Teardown, Reconcile, FirewallUp, BeforeFirewall, AllWork, ValidConfig, Present, Served,
         InstallChain, Worked;
    NoChainsIsValid();
    ServiceIsValid();
    HostReconcile(NO_CHAINS);
    var ready := Prepared(NO_CHAINS);
    TeardownJumps(NO_CHAINS, NOTHING_APPLIED, InputChain);
    InstallTakes(ready, InputChain, WAN);
    assert InstallInstant(NO_CHAINS, SERVICE, NOTHING_APPLIED, ForwardChain) == 26;
    ReconciledContent(NO_CHAINS, SERVICE, NOTHING_APPLIED, ForwardChain);
    WorkedTwo(NO_CHAINS.fate, 28, AcceptEstablishedIn, AcceptOut, DropNewIn);
  }

  lemma WorkedTwo(fate: nat -> Fate, t: nat, a: Rule, b: Rule, c: Rule)
    requires !fate(t).fails && !fate(t + 1).fails && fate(t + 2).fails
    ensures Worked(fate, t, [a, b, c]) == [a, b]
  {
    assert [a, b, c][1..] == [b, c] && [b, c][1..] == [c] && [c][1..] == [];
    assert Worked(fate, t + 2, [c]) == [];
    assert Worked(fate, t + 1, [b, c]) == [b];
    assert Worked(fate, t, [a, b, c]) == [a] + [b];
  }

  // ---------------------------------------------------------------- a LAN network on the tunnel device

  /** fe80::1/64. */
  const LINK_LOCAL: Prefix :=
    (LargePowers(); Prefix.Prefix(Address(true, 0xFE80_0000_0000_0000_0000_0000_0000_0001), 64))

  /** 2001:db8::/64. */
  const LAN_PREFIX: Prefix :=
    (LargePowers(); Prefix.Prefix(Address(true, 0x2001_0DB8_0000_0000_0000_0000_0000_0000), 64))

  /** The service with a LAN network on the tunnel device. */
  const ON_TUNNEL: Config :=
    SERVICE.(lan := LANConfig(true, [], DEFAULT_LAN_MODE, [NetworkConfig(TUNNEL, PrefixText(LAN_PREFIX), "")]))

  /** Nothing fails; but when the tunnel device comes up, its link-local address fails duplicate detection. */
  const BROKEN_TUNNEL: World :=
    World(Kernel(HOST, Firewall(map[], multiset{})), {}, 0,
      (t: nat) => Fate(false, false, if t == 16 then map[LINK_LOCAL := false] else map[], true, 0))

  lemma OnTunnelIsValid()
    ensures ValidConfig(ON_TUNNEL)
  {
    hide ValidConfig, IsIPv4, IsSpace, IsBlank, IsIPv6Address, GoodServer, ProfileDefaults, ConfigDefaults;
    PaddedEndpoint();
    ServiceHasDefaults();
    OnTunnelProfile();
    ValidConfigIff(ON_TUNNEL);
  }

  lemma OnTunnelProfile()
    ensures ProfileDefaults(ProfilePart(ON_TUNNEL)) == ProfilePart(ON_TUNNEL) && !IsBlank(TUNNEL)
  {
    ServiceHasDefaults();
    assert !IsSpace(TUNNEL[0]);
    hide IsSpace;
  }

  lemma LinkLocalIsOne()
    ensures IsLinkLocal(LINK_LOCAL.addr) && LINK_LOCAL != LOCAL
  {
    hide Pow2;
    LargePowers();
  }

  /** The gateway of the LAN network exists and is not the tunnel's address. */
  lemma LANGateway() returns (g: Prefix)
    ensures GatewayForPrefix(PrefixText(LAN_PREFIX)) == Some(PrefixText(g)) && g.addr.is6 && g != LOCAL
  {
    hide Pow2, NetworkOf;
    GatewayMissingIff(LAN_PREFIX);
    g := Gateway(LAN_PREFIX).value;
  }

  lemma {:induction false} SourceOnTunnel(g: Prefix)
    requires GatewayForPrefix(PrefixText(LAN_PREFIX)) == Some(PrefixText(g))
    ensures SelectSource(ON_TUNNEL) == NoSource || SelectSource(ON_TUNNEL) == Source(g.addr)
  {
    hide Pow2, IsPreferredSource, Gateway;
    LocalIsUniqueLocal();
    assert ON_TUNNEL.lan.networks[1..] == [];
  }

  /** The network after the tunnel device has been reset. */
  function Reset(n: Network): Network {
    n.(dadOff := n.dadOff + {TUNNEL}, addrs := WithoutDevice(n.addrs, TUNNEL))
  }

  lemma DadOffHere(n: Network, f: Fate)
    requires n.tunnel.Some?
    ensures var n1 := n.(dadOff := n.dadOff + {TUNNEL});
            && NetworkEffect(n, Addr(AcceptDadOff(TUNNEL)), f) == Some(n1)
            && NetworkEffect(n1, Read(ShowAddr6(TUNNEL)), f) == Some(n1)
            && (n1.BrokenLinkLocal(TUNNEL) <==> n.BrokenLinkLocal(TUNNEL))
            && (Present(n, ROUTE) ==> Present(n1, ROUTE))
  {
    hide IsLinkLocal;
  }

  lemma DisableHere(n: Network, f: Fate)
    requires n.tunnel.Some?
    ensures var n1 := n.(dadOff := n.dadOff + {TUNNEL});
            NetworkEffect(n1, Addr(DisableIPv6(TUNNEL)), f) == Some(Reset(n).(ipv6Off := n.ipv6Off + {TUNNEL}))
    ensures Present(n, ROUTE) ==> Present(Reset(n).(ipv6Off := n.ipv6Off + {TUNNEL}), ROUTE)
  {
    hide WithoutDevice;
  }

  lemma NoLinkLocals(addrs: AddressTable)
    ensures LinkLocals(TUNNEL, map[]) + addrs == addrs
  {
    hide IsLinkLocal;
    assert LinkLocals(TUNNEL, map[]) == map[];
  }

  lemma EnableEffect(n: Network, f: Fate)
    requires n.tunnel.Some? && TUNNEL in n.ipv6Off && f.autoconf == map[]
    ensures NetworkEffect(n, Addr(EnableIPv6(TUNNEL)), f) == Some(n.(ipv6Off := n.ipv6Off - {TUNNEL}))
  {
    hide LinkLocals;
    NoLinkLocals(n.addrs);
  }

  lemma EnableHere(n: Network, f: Fate)
    requires n.tunnel.Some? && TUNNEL !in n.ipv6Off && f.autoconf == map[]
    ensures NetworkEffect(Reset(n).(ipv6Off := n.ipv6Off + {TUNNEL}), Addr(EnableIPv6(TUNNEL)), f) == Some(Reset(n))
    ensures Present(n, ROUTE) ==> Present(Reset(n), ROUTE)
  {
    hide WithoutDevice, NetworkEffect;
    EnableEffect(Reset(n).(ipv6Off := n.ipv6Off + {TUNNEL}), f);
    assert n.ipv6Off + {TUNNEL} - {TUNNEL} == n.ipv6Off;
  }

  lemma ResetIsBare(n: Network, p: Prefix)
    ensures (TUNNEL, p) !in Reset(n).addrs
  {
  }

  /** Making the tunnel device ready with a broken link-local address resets it. */
  lemma {:induction false} ResetRun(w0: World, k: nat, n: Network, w: World)
    requires At(w0, k, n, w) && Works(w0, k, 4) && w0.fate(w0.now + k + 3).autoconf == map[]
    requires n.tunnel.Some? && TUNNEL !in n.ipv6Off && n.BrokenLinkLocal(TUNNEL)
    requires Present(n, ROUTE) && ROUTE in w.owned
    ensures var o := ReadyInterface(w, TUNNEL);
            o.err.None? && At(w0, k + 4, Reset(n), o.world) && ROUTE in o.world.owned && Present(Reset(n), ROUTE)
  {
    hide Exec, Run, NetworkEffect, Present, Creates, Reset, RunAll, Network.BrokenLinkLocal;
    var n1 := n.(dadOff := n.dadOff + {TUNNEL});
    var n2 := Reset(n).(ipv6Off := n.ipv6Off + {TUNNEL});
    var dad, off, on := Addr(AcceptDadOff(TUNNEL)), Addr(DisableIPv6(TUNNEL)), Addr(EnableIPv6(TUNNEL));
    DadOffHere(n, w0.fate(w0.now + k));
    DadOffHere(n, w0.fate(w0.now + k + 1));
    DisableHere(n, w0.fate(w0.now + k + 2));
    EnableHere(n, w0.fate(w0.now + k + 3));
    Next(w0, k, n, w, dad, n1, ROUTE);
    var w1 := Run(w, dad).world;
    Next(w0, k + 1, n1, w1, Read(ShowAddr6(TUNNEL)), n1, ROUTE);
    var w2 := Exec(w1, Read(ShowAddr6(TUNNEL))).world;
    Next(w0, k + 2, n1, w2, off, n2, ROUTE);
    var w3 := Run(w2, off).world;
    Next(w0, k + 3, n2, w3, on, Reset(n), ROUTE);
    RunTwo(w2, off, on);
    RunOne(w3, on);
  }

  lemma InLinkLocals(autoconf: map<Prefix, bool>, p: Prefix)
    ensures (TUNNEL, p) in LinkLocals(TUNNEL, autoconf) <==> p in autoconf && p.addr.is6 && IsLinkLocal(p.addr)
    ensures (TUNNEL, p) in LinkLocals(TUNNEL, autoconf) ==> LinkLocals(TUNNEL, autoconf)[(TUNNEL, p)] == autoconf[p]
  {
    hide IsLinkLocal;
  }

  lemma BrokenHere()
    ensures var n := Up(map[LINK_LOCAL := false]);
            && n.tunnel.Some? && n.tunnel.value.up && n.ipv6Off == {} && (TUNNEL, LOCAL) !in n.addrs
            && (TUNNEL, LINK_LOCAL) in n.addrs && !n.addrs[(TUNNEL, LINK_LOCAL)]
  {
    hide IsLinkLocal, LinkLocals;
    LinkLocalIsOne();
    InLinkLocals(map[LINK_LOCAL := false], LINK_LOCAL);
    InLinkLocals(map[LINK_LOCAL := false], LOCAL);
  }

  lemma BrokenWithAddress(n: Network)
    requires (TUNNEL, LINK_LOCAL) in n.addrs && !n.addrs[(TUNNEL, LINK_LOCAL)]
    ensures WithAddress(n, LOCAL).(forwarding := true).BrokenLinkLocal(TUNNEL)
  {
    hide IsLinkLocal;
    LinkLocalIsOne();
    assert (TUNNEL, LINK_LOCAL) in WithAddress(n, LOCAL).(forwarding := true).addrs.Keys;
  }

  /** The tunnel device with its address, before LAN is made ready... */
  function BeforeLAN(): Network {
    WithAddress(Up(map[LINK_LOCAL := false]), LOCAL).(forwarding := true)
  }

  /** ...and after. */
  function AfterLAN(g: Prefix): Network {
    WithAddress(Reset(BeforeLAN()), g)
  }

  lemma {:induction false} BrokenAddressRun(w0: World, k: nat, w: World)
    requires At(w0, k, Up(map[LINK_LOCAL := false]), w) && Works(w0, k, 3) && ROUTE in w.owned
    ensures var a := EnsureAddress(w, TUNNEL, PrefixText(LOCAL)); var f := Run(a.world, Routing(ForwardingOn));
            && a.err.None? && f.err.None? && At(w0, k + 3, BeforeLAN(), f.world) && ROUTE in f.world.owned && Present(BeforeLAN(), ROUTE)
  {
    hide Exec, Run, NetworkEffect, Present, Creates, Up, At, EnsureAddress;
    BrokenHere();
    RouteStays(map[LINK_LOCAL := false]);
    var up := Up(map[LINK_LOCAL := false]);
    AddressRun(w0, k, up, w, LOCAL);
    var a := EnsureAddress(w, TUNNEL, PrefixText(LOCAL)).world;
    ForwardingHere(WithAddress(up, LOCAL), w0.fate(w0.now + k + 2));
    hide WithAddress;
    Next(w0, k + 2, WithAddress(up, LOCAL), a, Routing(ForwardingOn), BeforeLAN(), ROUTE);
  }

  lemma LANNetworksAre(w: World, g: Prefix)
    requires GatewayForPrefix(PrefixText(LAN_PREFIX)) == Some(PrefixText(g))
    ensures var r := ReadyInterface(w, TUNNEL);
            r.err.None? && EnsureAddress(r.world, TUNNEL, PrefixText(g)).err.None? ==>
            ReadyNetworks(w, ON_TUNNEL.lan.networks, {}) == EnsureAddress(r.world, TUNNEL, PrefixText(g))
  {
    hide ReadyInterface, EnsureAddress, GatewayForPrefix;
    assert ON_TUNNEL.lan.networks[1..] == [];
  }

  lemma BeforeLANFacts()
    ensures var n := BeforeLAN();
            n.tunnel.Some? && n.tunnel.value.up && n.ipv6Off == {} && n.BrokenLinkLocal(TUNNEL)
  {
    BrokenHere();
    BrokenWithAddress(Up(map[LINK_LOCAL := false]));
    hide Up, Network.BrokenLinkLocal;
  }

  lemma {:induction false} LANRun(w0: World, k: nat, w: World, g: Prefix)
    requires At(w0, k, Up(map[LINK_LOCAL := false]), w) && Works(w0, k, 9) && ROUTE in w.owned
    requires w0.fate(w0.now + k + 6).autoconf == map[]
    requires GatewayForPrefix(PrefixText(LAN_PREFIX)) == Some(PrefixText(g)) && g.addr.is6
    ensures var o := BringUpAddresses(w, ON_TUNNEL);
            o.err.None? && At(w0, k + 9, AfterLAN(g), o.world) && ROUTE in o.world.owned && Present(AfterLAN(g), ROUTE)
  {
    hide Exec, Run, NetworkEffect, Present, Creates, Up, At, EnsureAddress, ReadyInterface, ReadyNetworks, BeforeLAN,
         GatewayForPrefix, Network.BrokenLinkLocal;
    BrokenAddressRun(w0, k, w);
    BeforeLANFacts();
    var f := Run(EnsureAddress(w, TUNNEL, PrefixText(LOCAL)).world, Routing(ForwardingOn)).world;
    ResetRun(w0, k + 3, BeforeLAN(), f);
    ResetIsBare(BeforeLAN(), g);
    AddressRun(w0, k + 7, Reset(BeforeLAN()), ReadyInterface(f, TUNNEL).world, g);
    LANNetworksAre(f, g);
  }

  lemma GatewayAssigned(g: Prefix)
    ensures var n := AfterLAN(g);
            && n.tunnel.Some? && n.tunnel.value.up && n.Assigned(g.addr)
            && (g != LOCAL ==> (TUNNEL, LOCAL) !in n.addrs)
  {
    hide BeforeLAN;
    BeforeLANFacts();
    ResetIsBare(BeforeLAN(), LOCAL);
    hide WithoutDevice, Network.BrokenLinkLocal;
    assert (TUNNEL, g) in AfterLAN(g).addrs.Keys;
  }

  lemma {:induction false} LANRouteRun(w0: World, k: nat, w: World, g: Prefix)
    requires At(w0, k, AfterLAN(g), w) && Works(w0, k, 1) && ROUTE in w.owned && Present(AfterLAN(g), ROUTE)
    requires GatewayForPrefix(PrefixText(LAN_PREFIX)) == Some(PrefixText(g))
    ensures var o := BringUpRoute(w, ON_TUNNEL);
            o.err.None? && o.world.kernel.net.addrs == AfterLAN(g).addrs && At(w0, k + 1, o.world.kernel.net, o.world)
  {
    hide Exec, Run, NetworkEffect, Present, Creates, AfterLAN, SelectSource, GatewayForPrefix, Network.Assigned;
    GatewayAssigned(g);
    SourceOnTunnel(g);
    var src := if SelectSource(ON_TUNNEL).NoSource? then None else Some(g.addr);
    var n := AfterLAN(g);
    DefaultRouteHere(n, src, w0.fate(w0.now + k));
    Next(w0, k, n, w, Routing(Route6Replace(src)), n.(default6 := Some(DefaultRoute(src))), ROUTE);
  }

  lemma BrokenTunnelIsValid()
    ensures BROKEN_TUNNEL.Valid() && BROKEN_TUNNEL.kernel.net == HOST && BROKEN_TUNNEL.now == 0
    ensures forall t: nat {:trigger BROKEN_TUNNEL.fate(t)} :: !BROKEN_TUNNEL.fate(t).fails
    ensures BROKEN_TUNNEL.fate(16).autoconf == map[LINK_LOCAL := false]
    ensures BROKEN_TUNNEL.fate(23).autoconf == map[]
  {
  }

  lemma {:induction false} OnTunnelRun(w: World)
    requires w.Valid() && w.kernel.net == HOST && AllWork(w.fate, w.now, 16)
    requires w.fate(w.now + 5).autoconf == map[LINK_LOCAL := false] && w.fate(w.now + 12).autoconf == map[]
    ensures Establish(w, ON_TUNNEL).err.None?
    ensures (TUNNEL, LOCAL) !in BeforeFirewall(w, ON_TUNNEL).kernel.net.addrs
  {
    hide World.Valid, Exec, Run, NetworkEffect, Present, Creates, Up, At, ReadWAN4, BringUpLink, BringUpAddresses,
         BringUpRoute, FirewallUp, AfterLAN, GatewayForPrefix, Establish, BeforeFirewall;
    AtStart(w);
    WANRun(w, 0, w);
    var ip := ReadWAN4(w, WAN).world;
    LinkRun(w, 1, ip, ON_TUNNEL);
    var l := BringUpLink(ip, ON_TUNNEL, WAN_IP).world;
    var g := LANGateway();
    LANRun(w, 6, l, g);
    var a := BringUpAddresses(l, ON_TUNNEL).world;
    LANRouteRun(w, 15, a, g);
    GatewayAssigned(g);
    Stages(w, ON_TUNNEL);
  }

  /** A reconcile in which nothing fails, which reports success, and which ends without the tunnel's own
      address: a LAN network is on the tunnel device, and making that ready wiped it. */
  lemma {:induction false} TunnelAddressWiped()
    ensures BROKEN_TUNNEL.Valid() && ValidConfig(ON_TUNNEL)
    ensures var r := Reconcile(BROKEN_TUNNEL, ON_TUNNEL, true, NOTHING_APPLIED);
            r.err.None? && (TUNNEL, LOCAL) !in r.world.kernel.net.addrs
  {
    hide World.Valid, Teardown, Establish, BeforeFirewall, FirewallUp, AllWork, ValidConfig;
    BrokenTunnelIsValid();
    OnTunnelIsValid();
    HostTeardown(BROKEN_TUNNEL);
    var down := Teardown(BROKEN_TUNNEL, NOTHING_APPLIED);
    assert AllWork(down.fate, down.now, 16) by {
      NeverFailing(down.fate, down.now, 16);
    }
    OnTunnelRun(down);
    EstablishBefore(down, ON_TUNNEL);
    FirewallUpOnlyFirewall(BeforeFirewall(down, ON_TUNNEL), WAN);
  }

  lemma NeverFailing(fate: nat -> Fate, t: nat, n: nat)
    requires forall i: nat {:trigger fate(i)} :: !fate(i).fails
    ensures AllWork(fate, t, n)
  {
  }

  // ---------------------------------------------------------------- a bridge that was recreated

  const BRIDGE: string := "br-lan"

  /** The service with a LAN network on the bridge. */
  const ON_BRIDGE: Config :=
    SERVICE.(lan := LANConfig(true, [], DEFAULT_LAN_MODE, [NetworkConfig(BRIDGE, PrefixText(LAN_PREFIX), "")]))

  /** The service is up, but the bridge is new: it has no address and does duplicate detection again, which
      takes longer than the repair. */
  function Recreated(): World {
    World(Kernel(Served().(links := map[WAN := 1500, BRIDGE := 1500]), Firewall(map[], multiset{})), {}, 0,
      (t: nat) => Fate(false, true, map[], true, 0))
  }

  lemma ServedIsValid()
    ensures Served().Valid() && IsHealthy(Served(), TUNNEL, PrefixText(LOCAL)) && Served().dadOff == {} && Served().ipv6Off == {}
    ensures Served().tunnel.Some? && forall key <- Served().addrs.Keys :: key.0 == TUNNEL
  {
    hide Up;
    UpIsBare();
  }

  lemma RecreatedIsValid()
    ensures Recreated().Valid() && Recreated().Calm() && AllTentative(Recreated())
    ensures var n := Recreated().kernel.net;
            && IsHealthy(n, TUNNEL, PrefixText(LOCAL)) && n.HasDevice(BRIDGE) && n.HasDevice(TUNNEL)
            && n.ipv6Off == {} && !NoDad(n, BRIDGE) && (forall p: Prefix :: (BRIDGE, p) !in n.addrs)
  {
    hide Served;
    ServedIsValid();
    BridgeIsNotTheTunnel();
  }

  lemma BridgeIsNotTheTunnel()
    ensures BRIDGE != TUNNEL
  {
  }

  lemma BridgeIsUsable(n: Network, g: Prefix)
    requires GatewayForPrefix(PrefixText(LAN_PREFIX)) == Some(PrefixText(g)) && g.addr.is6
    requires n.HasDevice(BRIDGE) && n.ipv6Off == {}
    ensures AllUsable(n, ON_BRIDGE.lan.networks)
    ensures (BRIDGE, g) !in n.addrs && !NoDad(n, BRIDGE) ==> !Mendable(n, ON_BRIDGE.lan.networks)
  {
    hide Gateway;
    GatewayTextParses(PrefixText(LAN_PREFIX));
    assert ON_BRIDGE.lan.networks[0].iface == BRIDGE;
  }

  /** A repair in which nothing fails, which reports success, and after which a gateway is still unusable. */
  lemma {:induction false} RepairHealsNot()
    ensures Recreated().Valid() && Recreated().Calm()
    ensures var o := RepairAddresses(Recreated(), ON_BRIDGE);
            o.err.None? && IsHealthy(o.world.kernel.net, TUNNEL, PrefixText(LOCAL)) && !AllHealthy(o.world.kernel.net, ON_BRIDGE)
  {
    hide World.Valid, World.Calm, AllTentative, RepairAddresses, Recreated, Mendable, AllUsable, GatewayForPrefix,
         AllNetworksHealthy;
    RecreatedIsValid();
    var g := LANGateway();
    BridgeIsUsable(Recreated().kernel.net, g);
    LocalIsUniqueLocal();
    RepairSucceedsIff(Recreated(), ON_BRIDGE);
    RepairHealsIff(Recreated(), ON_BRIDGE);
    RepairRestores(Recreated(), ON_BRIDGE);
  }
}
