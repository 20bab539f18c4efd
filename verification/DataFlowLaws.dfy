/** Where MTU and resolvers end up: the kernel, the status and the router advertisements agree. */
module DataFlowLaws {
  import opened Options
  import opened Addresses
  import opened Kernel
  import opened Config
  import opened Backend
  import opened AddressLaws
  import opened LanLaws
  import opened ReconcileLaws
  import opened Convergence
  import opened ObserveLaws
  import opened PassLaws
  import opened Advertising
  import opened Daemon
  import opened DaemonLaws
  import opened UpdateLaws

  /** The advertiser of a pass without errors. */
  lemma {:induction false} PassAdvertises(w: World, c: Config, applied: AppliedState)
    requires w.Valid() && c.tunnel.enabled && Advertises(c)
    requires var p := RunPass(w, c, true, applied); p.backendErr.None? && p.advertiserErr.None?
    ensures var p := RunPass(w, c, true, applied);
            p.advertiser.Some? && Plan(p.config).Good? && p.advertiser.value == Plan(p.config).value
  {
    hide World.Valid, Reconcile, ObserveFor, ProbeIf, StartIf, Plan, Unchanged, Onward;
    var r := Reconcile(w, c, true, applied);
    ReconcileOnward(w, c, true, applied);
    PassWorldValid(w, r.world);
    StartUnchanged(true, r.world, r.config);
  }

  /** The advertised data of a daemon after a reconcile without error. */
  lemma {:induction false} ReconcileAdvertises(d: Daemon)
    requires Sane(d) && ValidConfig(d.config) && d.config.tunnel.enabled && Advertises(d.config)
    requires ReconcileLocked(d).err.None?
    ensures var e := ReconcileLocked(d).daemon; var c := WithMTU(d.config, e.state.effectiveMTU);
            LANOffTunnel(d.config) ==> e.advertiser.Some? && Plan(c).Good? && e.advertiser.value == Plan(c).value
  {
    hide RunPass, Converged, World.Valid, LANOffTunnel, Tracked, Loaded, StuckItems, PassTroubles, PhaseAfter,
         AppliedAfter, ActiveProfile, ConfigReasons, TargetMTU, Plan;
    ValidMeansNoReasons(d.config);
    var p := RunPass(d.world, d.config, true, d.state.applied);
    assert p.backendErr.None? && p.advertiserErr.None?;
    PassAdvertises(d.world, d.config, d.state.applied);
    if LANOffTunnel(d.config) {
      PassReached(d.world, d.config, d.state.applied);
    }
  }

  /** A valid, wanted config with LAN networks that a reconcile can advertise. */
  ghost predicate Publishable(d: Daemon) {
    Sane(d) && ValidConfig(d.config) && d.config.tunnel.enabled && Advertises(d.config) && LANOffTunnel(d.config)
  }

  /** The tunnel device, the status, the advertiser and what a host learns from it are one MTU. */
  ghost predicate OneMTU(e: Daemon, iface: Option<NetInterface>, p: Prefix) {
    var n := e.world.kernel.net; var mtu := e.state.effectiveMTU;
    && n.tunnel.Some? && n.tunnel.value.mtu == mtu
    && mtu >= MINIMUM_IPV6_MTU
    && e.advertiser.Some? && e.advertiser.value.mtu == mtu
    && LearnedMTU(RAOptions(iface, p, e.advertiser.value.dns, e.advertiser.value.mtu)) == Some(mtu)
    && (e.config.tunnel.mtu > 0 ==> mtu == e.config.tunnel.mtu)
    && (e.config.tunnel.mtu <= 0 ==>
          e.config.server.wanInterface in n.links && mtu == n.links[e.config.server.wanInterface] - TUNNEL_OVERHEAD)
  }

  /** MTU end to end. After a reconcile without error of a valid, wanted config with LAN networks, the
      tunnel device, the status and what every host on the LAN learns from a router advertisement
      (section 4.6.4 of RFC 4861) are one number, at least 1280 (section 5 of RFC 8200); left to the
      daemon it is the WAN's MTU less the 20 bytes of an IPv4 header (section 3.2 of RFC 4213). The
      stored config still says what it said. */
  lemma {:induction false} MTUEndToEnd(d: Daemon, iface: Option<NetInterface>, p: Prefix)
    requires Publishable(d) && ReconcileLocked(d).err.None?
    ensures OneMTU(ReconcileLocked(d).daemon, iface, p)
    ensures ReconcileLocked(d).daemon.config == d.config
  {
    hide ReconcileLocked, Sane, ValidConfig, LANOffTunnel, Converged, Plan, RAOptions, Steady, Serves;
    ReconcileServes(d);
    ReconcileAdvertises(d);
    ReconcileSteadies(d);
    var e := ReconcileLocked(d).daemon;
    ServesMTU(e);
    PlanGoodIff(WithMTU(d.config, e.state.effectiveMTU));
    HostLearns(iface, p, e.advertiser.value.dns, e.state.effectiveMTU);
  }

  lemma ServesMTU(e: Daemon)
    requires Serves(e)
    ensures var n := e.world.kernel.net;
            && n.tunnel.Some? && n.tunnel.value.mtu == e.state.effectiveMTU
            && TUNNEL_MTU_MIN <= e.state.effectiveMTU <= TUNNEL_MTU_MAX
            && Some(e.state.effectiveMTU) == TargetMTU(n, e.config)
  {
    hide Converged;
    ConvergedMTU(e.world.kernel.net, WithMTU(e.config, e.state.effectiveMTU), e.world.kernel.net.wan4[e.config.server.wanInterface]);
  }

  /** Router addresses of networks whose gateways are in place are assigned addresses. */
  lemma RoutersAssigned(n: Network, ns: seq<NetworkConfig>, k: nat)
    requires AllNetworksHealthy(n, ns) && k < |ns|
    ensures ns[k].prefix.Parse().Some?
    ensures var a := GatewayAddress(ns[k].prefix.Parse().value); a.Some? && n.Assigned(a.value)
  {
    hide Network.Assigned, IsHealthy, GatewayAddress;
    assert NetworkHealthy(n, ns[k]);
    var text := GatewayForPrefix(ns[k].prefix).value;
    HealthyGatewayParses(n, ns[k].iface, text);
    HealthyAssigns(n, ns[k].iface, text);
  }

  lemma {:induction false} RouterDNSAssigned(n: Network, ns: seq<NetworkConfig>)
    requires AllNetworksHealthy(n, ns)
    ensures RouterDNS(ns).Good?
    ensures forall a :: a in RouterDNS(ns).value ==> a.Some? && n.Assigned(a.value)
    ensures InOrder(RouterDNS(ns).value, RouterAddresses(ns))
  {
    hide Network.Assigned, AllNetworksHealthy, FirstOccurrences, InOrder, GatewayAddress;
    forall k | 0 <= k < |ns|
      ensures ns[k].prefix.Parse().Some?
      ensures var a := GatewayAddress(ns[k].prefix.Parse().value); a.Some? && n.Assigned(a.value)
    {
      RoutersAssigned(n, ns, k);
    }
    FirstOccurrencesInOrder(RouterAddresses(ns));
  }

  /** The resolvers advertised are the routers: assigned addresses, each once, in order. */
  ghost predicate AdvertisesRouters(e: Daemon) {
    var ns := e.config.lan.networks;
    && e.advertiser.Some?
    && (forall a :: a in e.advertiser.value.dns ==> a.Some? && e.world.kernel.net.Assigned(a.value))
    && (forall i :: 0 <= i < |ns| ==> ns[i].prefix.Parse().Some?)
    && (forall a :: a in e.advertiser.value.dns <==> a in RouterAddresses(ns))
    && InOrder(e.advertiser.value.dns, RouterAddresses(ns))
  }

  lemma {:induction false} AdvertisesRoutersIntro(e: Daemon)
    requires e.advertiser.Some? && AllNetworksHealthy(e.world.kernel.net, e.config.lan.networks)
    requires RouterDNS(e.config.lan.networks) == Good(e.advertiser.value.dns)
    ensures AdvertisesRouters(e)
  {
    hide Network.Assigned, AllNetworksHealthy, InOrder, GatewayAddress;
    RouterDNSAssigned(e.world.kernel.net, e.config.lan.networks);
    hide FirstOccurrences;
  }

  /** With no resolvers configured, the daemon advertises its own router addresses (section 5.1 of
      RFC 8106): each is an address it has assigned, none twice, in the order of the networks. */
  lemma {:induction false} AutoDNSAssigned(d: Daemon)
    requires Publishable(d) && ReconcileLocked(d).err.None? && d.config.lan.dns == []
    ensures AdvertisesRouters(ReconcileLocked(d).daemon)
  {
    hide ReconcileLocked, Sane, ValidConfig, LANOffTunnel, Steady, RouterDNS, InOrder, Network.Assigned,
         RouterAddresses, AdvertisedNetworks, SelectSource, AdvertisesRouters;
    ReconcileServes(d);
    ReconcileAdvertises(d);
    ReconcileSteadies(d);
    var e := ReconcileLocked(d).daemon;
    assert AllHealthy(e.world.kernel.net, WithMTU(d.config, e.state.effectiveMTU));
    hide AllNetworksHealthy;
    AdvertisesRoutersIntro(e);
  }
}
