/** What becomes of every single thing the daemon installed: exactly when a reconcile leaves it. */
module OwnershipLaws {
  import opened Options
  import opened Addresses
  import opened Kernel
  import opened Config
  import opened Backend
  import opened AddressLaws
  import opened LanLaws
  import opened TeardownLaws
  import opened FirewallLaws
  import opened LinkLaws
  import opened ReconcileLaws

  // ---------------------------------------------------------------- single commands

  /** The command cannot take this item away. */
  predicate Spares(cmd: Command, item: Item) {
    match item
    case LanAddress(dev, p) =>
      (match cmd
       case Addr(AddrDel(d, text)) => d != dev || text.Parse() != Some(p)
       case Addr(DisableIPv6(d)) => d != dev
       case Tunnel(_) => dev != TUNNEL
       case _ => true)
    case EndpointRoute(dev, e) =>
      (match cmd
       case Routing(RouteReplace(endpoint, d, _)) => endpoint != e || d == dev
       case Routing(RouteDel(endpoint, d)) => endpoint != e || d != dev
       case _ => true)
  }

  lemma TunnelSpares(n: Network, t: TunnelCommand, item: Item, f: Fate)
    requires TunnelEffect(n, t, f).Some? && Spares(Tunnel(t), item) && Present(n, item)
    ensures Present(TunnelEffect(n, t, f).value, item)
  {
  }

  lemma AddressSpares(n: Network, a: AddressCommand, item: Item, f: Fate)
    requires AddressEffect(n, a, f).Some? && Spares(Addr(a), item) && Present(n, item)
    ensures Present(AddressEffect(n, a, f).value, item)
  {
  }

  lemma RouteSpares(n: Network, r: RouteCommand, item: Item)
    requires RouteEffect(n, r).Some? && Spares(Routing(r), item) && Present(n, item)
    ensures Present(RouteEffect(n, r).value, item)
  {
  }

  lemma EffectSpares(k: Kernel, cmd: Command, item: Item, f: Fate)
    requires Effect(k, cmd, f).Some? && Spares(cmd, item) && Present(k.net, item)
    ensures Present(Effect(k, cmd, f).value.net, item)
  {
    hide Spares, Present, TunnelEffect, AddressEffect, RouteEffect, FirewallEffect;
    match cmd
    case Tunnel(t) => TunnelSpares(k.net, t, item, f);
    case Addr(a) => AddressSpares(k.net, a, item, f);
    case Routing(r) => RouteSpares(k.net, r, item);
    case _ =>
  }

  /** A command that neither creates nor can take an item leaves its ownership alone. */
  lemma ExecSpares(w: World, cmd: Command, item: Item)
    requires w.Valid() && item !in Creates(cmd) && Spares(cmd, item)
    ensures item in Exec(w, cmd).world.owned <==> item in w.owned
  {
    hide Spares, Present, Effect, Creates, Kernel.Valid;
    if Effect(w.kernel, cmd, w.fate(w.now)).Some? && item in w.owned {
      assert Present(w.kernel.net, item);
      EffectSpares(w.kernel, cmd, item, w.fate(w.now));
    }
  }

  lemma RunSpares(w: World, cmd: Command, item: Item)
    requires w.Valid() && item !in Creates(cmd) && Spares(cmd, item)
    ensures item in Run(w, cmd).world.owned <==> item in w.owned
    ensures Run(w, cmd).world.Valid()
  {
    hide Exec, Creates, Spares, World.Valid;
    ExecSpares(w, cmd, item);
    ExecKeeps(w, cmd);
  }

  lemma {:induction false} RunAllSpares(w: World, cs: seq<Command>, item: Item)
    requires w.Valid() && forall cmd <- cs :: item !in Creates(cmd) && Spares(cmd, item)
    ensures item in RunAll(w, cs).world.owned <==> item in w.owned
    decreases |cs|
  {
    hide Run, Creates, Spares, World.Valid;
    if cs != [] {
      RunSpares(w, cs[0], item);
      if Run(w, cs[0]).err.None? {
        RunAllSpares(Run(w, cs[0]).world, cs[1..], item);
      }
    }
  }

  // ---------------------------------------------------------------- addresses

  /** Ensuring one address leaves the ownership of every other item alone. */
  lemma EnsureSpares(w: World, dev: string, text: PrefixText, item: Item)
    requires w.Valid()
    requires item.LanAddress? && item.dev == dev ==> text.Parse() != Some(item.prefix)
    ensures item in EnsureAddress(w, dev, text).world.owned <==> item in w.owned
  {
    if text.Parse().Some? {
      var d := Exec(w, Read(ShowAddr6(dev)));
      var del, add := Addr(AddrDel(dev, text)), Addr(AddrAdd(dev, text));
      ExecKeeps(w, Read(ShowAddr6(dev)));
      ReadLeavesKernel(w, ShowAddr6(dev));
      assert item !in Creates(del) && Spares(del, item) && item !in Creates(add) && Spares(add, item);
      hide Exec, RunAll, World.Valid, Creates, Spares;
      RunAllSpares(d.world, [add], item);
      RunAllSpares(d.world, [del, add], item);
    }
  }

  /** The reset of the device gets as far as taking its addresses away. */
  predicate ResetStarts(w: World, dev: string) {
    var a := Run(w, Addr(AcceptDadOff(dev)));
    a.err.None? &&
    var d := Exec(a.world, Read(ShowAddr6(dev)));
    d.ok && d.world.kernel.net.BrokenLinkLocal(dev) && Run(d.world, Addr(DisableIPv6(dev))).err.None?
  }

  lemma DisableTakes(w: World, dev: string, item: Item)
    requires w.Valid()
    ensures var o := Run(w, Addr(DisableIPv6(dev)));
            item in o.world.owned <==> item in w.owned && !(item.LanAddress? && item.dev == dev && o.err.None?)
  {
    if item.LanAddress? && item.dev == dev {
      assert item !in Creates(Addr(DisableIPv6(dev)));
    } else {
      hide Exec, World.Valid;
      RunSpares(w, Addr(DisableIPv6(dev)), item);
    }
  }

  lemma ToggleTakes(w: World, dev: string, item: Item)
    requires w.Valid()
    ensures var off := Addr(DisableIPv6(dev));
            item in RunAll(w, [off, Addr(EnableIPv6(dev))]).world.owned <==>
            item in w.owned && !(item.LanAddress? && item.dev == dev && Run(w, off).err.None?)
  {
    var off, on := Addr(DisableIPv6(dev)), Addr(EnableIPv6(dev));
    assert item !in Creates(on) && Spares(on, item);
    hide Run, RunAll, World.Valid, Creates, Spares;
    RunTwo(w, off, on);
    DisableTakes(w, dev, item);
    RunKeepsValid(w, off);
    if Run(w, off).err.None? {
      RunOne(Run(w, off).world, on);
      RunSpares(Run(w, off).world, on, item);
    }
  }

  lemma RunKeepsValid(w: World, cmd: Command)
    requires w.Valid()
    ensures Run(w, cmd).world.Valid()
  {
    hide Exec, World.Valid;
    ExecKeeps(w, cmd);
  }

  /** Readying a device takes its addresses exactly if the reset starts, and nothing else ever. */
  lemma ReadyInterfaceTakes(w: World, dev: string, item: Item)
    requires w.Valid()
    ensures item in ReadyInterface(w, dev).world.owned <==>
            item in w.owned && !(item.LanAddress? && item.dev == dev && ResetStarts(w, dev))
  {
    var dad := Addr(AcceptDadOff(dev));
    assert item !in Creates(dad) && Spares(dad, item);
    hide Run, Exec, RunAll, World.Valid, Creates, Spares, Network.BrokenLinkLocal;
    var a := Run(w, dad);
    RunSpares(w, dad, item);
    if a.err.None? {
      var d := Exec(a.world, Read(ShowAddr6(dev)));
      ExecKeeps(a.world, Read(ShowAddr6(dev)));
      ReadLeavesKernel(a.world, ShowAddr6(dev));
      ToggleTakes(d.world, dev, item);
    }
  }

  lemma ReadyNetworkTakes(w: World, nw: NetworkConfig, managed: set<string>, item: Item)
    requires w.Valid() && item !in GatewayItems(nw)
    ensures item in ReadyNetwork(w, nw, managed).world.owned <==>
            item in w.owned && !(item.LanAddress? && item.dev == nw.iface && nw.iface !in managed && ResetStarts(w, nw.iface))
  {
    hide World.Valid, EnsureAddress, ReadyInterface, ResetStarts, GatewayForPrefix, GatewayOf;
    var r := if nw.iface in managed then Outcome(w, None) else ReadyInterface(w, nw.iface);
    if nw.iface !in managed {
      ReadyInterfaceTakes(w, nw.iface, item);
      ReadyInterfaceReadies(w, nw.iface);
      ReadiedValid(w, nw.iface, r);
    }
    GatewayTextParses(nw.prefix);
    if r.err.None? && GatewayForPrefix(nw.prefix).Some? {
      EnsureSpares(r.world, nw.iface, GatewayForPrefix(nw.prefix).value, item);
    }
  }

  /** The LAN loop resets the device before its first network, provided it gets there. */
  predicate Resets(w: World, ns: seq<NetworkConfig>, managed: set<string>, dev: string)
    decreases |ns|
  {
    ns != [] &&
    (|| (ns[0].iface == dev && dev !in managed && ResetStarts(w, dev))
     || (var o := ReadyNetwork(w, ns[0], managed);
         o.err.None? && Resets(o.world, ns[1..], managed + {ns[0].iface}, dev)))
  }

  /** Outside the gateways the loop takes exactly the addresses of the devices it resets. */
  lemma {:induction false} ReadyNetworksTake(w: World, ns: seq<NetworkConfig>, managed: set<string>, item: Item)
    requires w.Valid() && item !in AllGatewayItems(ns)
    ensures item in ReadyNetworks(w, ns, managed).world.owned <==>
            item in w.owned && !(item.LanAddress? && Resets(w, ns, managed, item.dev))
    decreases |ns|
  {
    hide World.Valid, ReadyNetwork, ResetStarts, GatewayItems;
    if ns != [] {
      var a := ReadyNetwork(w, ns[0], managed);
      ReadyNetworkTakes(w, ns[0], managed, item);
      ReadyNetworkHandles(w, ns[0], managed);
      HandledValid(w, ns[0], ns[0].iface !in managed, a);
      hide Handled, Onward;
      if a.err.None? {
        ReadyNetworksTake(a.world, ns[1..], managed + {ns[0].iface}, item);
      }
    }
  }

  // ---------------------------------------------------------------- the link

  /** The route to the endpoint gets replaced. */
  predicate RouteReplaced(w: World, c: Config, wan4: string) {
    Run(BestEffort(w, [Read(Modprobe)]),
        Routing(RouteReplace(c.tunnel.remoteEndpoint, c.server.wanInterface, wan4))).err.None?
  }

  lemma RouteReplaceTakes(w: World, c: Config, wan4: string, item: Item)
    requires w.Valid() && item != EndpointRoute(c.server.wanInterface, c.tunnel.remoteEndpoint)
    ensures var o := Run(w, Routing(RouteReplace(c.tunnel.remoteEndpoint, c.server.wanInterface, wan4)));
            item in o.world.owned <==>
            item in w.owned && !(item.EndpointRoute? && item.endpoint == c.tunnel.remoteEndpoint && o.err.None?)
  {
    var cmd := Routing(RouteReplace(c.tunnel.remoteEndpoint, c.server.wanInterface, wan4));
    if item.EndpointRoute? && item.endpoint == c.tunnel.remoteEndpoint {
      assert item !in Creates(cmd);
    } else {
      assert item !in Creates(cmd) && Spares(cmd, item);
      hide Exec, World.Valid, Creates, Spares;
      RunSpares(w, cmd, item);
    }
  }

  lemma OwnedIsOffTunnel(w: World, item: Item)
    requires w.Valid() && item in w.owned
    ensures item.LanAddress? ==> item.dev != TUNNEL
  {
  }

  /** Bringing up the link takes no LAN address, and of the routes only one to the same endpoint. */
  lemma BringUpLinkTakes(w: World, c: Config, wan4: string, item: Item)
    requires w.Valid() && item != EndpointRoute(c.server.wanInterface, c.tunnel.remoteEndpoint)
    requires item.LanAddress? ==> item.dev != TUNNEL
    ensures item in BringUpLink(w, c, wan4).world.owned <==>
            item in w.owned && !(item.EndpointRoute? && item.endpoint == c.tunnel.remoteEndpoint && RouteReplaced(w, c, wan4))
  {
    var w0 := BestEffort(w, [Read(Modprobe)]);
    var r := Routing(RouteReplace(c.tunnel.remoteEndpoint, c.server.wanInterface, wan4));
    var rest := [Tunnel(TunnelAdd(c.tunnel.remoteEndpoint, wan4, c.tunnel.ttl)), Tunnel(LinkSetMtu(c.tunnel.mtu)), Tunnel(LinkSetUp)];
    assert LinkScript(c, wan4) == [r] + rest;
    assert forall cmd <- rest :: item !in Creates(cmd) && Spares(cmd, item);
    hide BestEffort, RunAll, Run, World.Valid, Creates, Spares, Onward;
    ModprobeFrame(w);
    OnwardValid(w, w0);
    RunAllStep(w0, r, rest);
    RouteReplaceTakes(w0, c, wan4, item);
    RunKeepsValid(w0, r);
    RunAllSpares(Run(w0, r).world, rest, item);
  }

  // ---------------------------------------------------------------- bringing up

  lemma ForwardingSpares(w: World, item: Item)
    requires w.Valid()
    ensures item in Run(w, Routing(ForwardingOn)).world.owned <==> item in w.owned
  {
    assert item !in Creates(Routing(ForwardingOn)) && Spares(Routing(ForwardingOn), item);
    hide Run, Creates, Spares, World.Valid;
    RunSpares(w, Routing(ForwardingOn), item);
  }

  lemma RouteSparesAll(w: World, c: Config, item: Item)
    requires w.Valid()
    ensures item in BringUpRoute(w, c).world.owned <==> item in w.owned
  {
    var cmd := Routing(Route6Replace(ChosenSource(c)));
    assert item !in Creates(cmd) && Spares(cmd, item);
    hide Run, Creates, Spares, World.Valid, SelectSource;
    RunSpares(w, cmd, item);
  }

  /** The addresses stage gets to reset the device. */
  predicate AddressesReset(w: World, c: Config, dev: string) {
    var a := EnsureAddress(w, TUNNEL, c.tunnel.localIPv6);
    a.err.None? &&
    var f := Run(a.world, Routing(ForwardingOn));
    f.err.None? && c.lan.enabled && Resets(f.world, c.lan.networks, {}, dev)
  }

  lemma BringUpAddressesTake(w: World, c: Config, item: Item)
    requires w.Valid() && item !in AllGatewayItems(c.lan.networks)
    requires item.LanAddress? ==> item.dev != TUNNEL
    ensures item in BringUpAddresses(w, c).world.owned <==>
            item in w.owned && !(item.LanAddress? && AddressesReset(w, c, item.dev))
  {
    hide World.Valid, EnsureAddress, Run, ReadyNetworks, AllGatewayItems, Resets, AddressesFrame;
    var a := EnsureAddress(w, TUNNEL, c.tunnel.localIPv6);
    EnsureSpares(w, TUNNEL, c.tunnel.localIPv6, item);
    TunnelAddressFrame(w, c);
    AddressesFrameValid(w, c, a.world);
    var f := Run(a.world, Routing(ForwardingOn));
    ForwardingSpares(a.world, item);
    ForwardingFrame(a.world, c);
    AddressesFrameValid(a.world, c, f.world);
    hide Onward;
    ReadyNetworksTake(f.world, c.lan.networks, {}, item);
  }

  /** What bringing everything up takes away of what was there. */
  predicate BringUpTakes(w: World, c: Config, wan4: string, item: Item) {
    match item
    case EndpointRoute(_, e) => e == c.tunnel.remoteEndpoint && RouteReplaced(w, c, wan4)
    case LanAddress(dev, _) =>
      var l := BringUpLink(w, c, wan4);
      l.err.None? && AddressesReset(l.world, c, dev)
  }

  lemma BringUpOwnsIff(w: World, c: Config, wan4: string, item: Item)
    requires w.Valid() && item !in Items(c)
    requires item.LanAddress? ==> item.dev != TUNNEL
    ensures item in BringUp(w, c, wan4).world.owned <==> item in w.owned && !BringUpTakes(w, c, wan4, item)
  {
    hide World.Valid, BringUpLink, BringUpAddresses, BringUpRoute, FirewallUp, AllGatewayItems, AddressesReset,
         RouteReplaced, Onward;
    var l := BringUpLink(w, c, wan4);
    BringUpLinkTakes(w, c, wan4, item);
    BringUpLinkFrame(w, c, wan4);
    LinkFrameValid(w, c, l.world);
    if l.err.None? {
      var a := BringUpAddresses(l.world, c);
      BringUpAddressesTake(l.world, c, item);
      BringUpAddressesFrame(l.world, c);
      AddressesFrameValid(l.world, c, a.world);
      if a.err.None? {
        var r := BringUpRoute(a.world, c);
        RouteSparesAll(a.world, c, item);
        BringUpRouteFrame(a.world, c);
        if r.err.None? {
          OnwardValid(a.world, r.world);
          FirewallUpOnlyFirewall(r.world, c.server.wanInterface);
        }
      }
    }
  }

  predicate EstablishTakes(w: World, c: Config, item: Item) {
    var wan := c.server.wanInterface;
    var ip := ReadWAN4(w, wan);
    ip.value.Some? &&
    var mtu := ResolveMTU(ip.world, c.tunnel.mtu, wan);
    mtu.value.Some? && BringUpTakes(mtu.world, WithMTU(c, mtu.value.value), ip.value.value, item)
  }

  lemma EstablishOwnsIff(w: World, c: Config, item: Item)
    requires w.Valid() && item !in Items(c)
    ensures item in Establish(w, c).world.owned <==> item in w.owned && !EstablishTakes(w, c, item)
  {
    hide World.Valid, ReadWAN4, ResolveMTU, BringUp, World.Calm, SameSurroundings, AllGatewayItems, BringUpTakes,
         Onward, Items;
    EstablishOwns(w, c);
    if item in Establish(w, c).world.owned {
      OwnsNothingElse(w, c, Establish(w, c).world, item);
    }
    if item in w.owned {
      OwnedIsOffTunnel(w, item);
      var wan := c.server.wanInterface;
      var ip := ReadWAN4(w, wan);
      ReadWAN4Reads(w, wan);
      OnwardValid(w, ip.world);
      if ip.value.Some? {
        var mtu := ResolveMTU(ip.world, c.tunnel.mtu, wan);
        ResolveMTUReads(ip.world, c.tunnel.mtu, wan);
        OnwardValid(ip.world, mtu.world);
        if mtu.value.Some? {
          ItemsIgnoreMTU(c, mtu.value.value);
          BringUpOwnsIff(mtu.world, WithMTU(c, mtu.value.value), ip.value.value, item);
        }
      }
    }
  }

  lemma ItemsIgnoreMTU(c: Config, mtu: int)
    ensures Items(WithMTU(c, mtu)) == Items(c)
  {
    hide AllGatewayItems;
  }

  lemma OwnsNothingElse(w: World, c: Config, w': World, item: Item)
    requires Owns(w, c, w') && item !in Items(c) && item in w'.owned
    ensures item in w.owned
  {
    hide Onward, Items;
  }

  // ---------------------------------------------------------------- a whole reconcile

  /** Every deletion the teardown of `applied` ran for this item failed. */
  predicate Undeleted(w: World, applied: AppliedState, item: Item) {
    AllDeletionsFail(w.fate, w.now, TeardownScript(applied), item)
  }

  /** The teardown leaves the item: it is not recorded, or could not be deleted. */
  predicate SurvivesTeardown(w: World, applied: AppliedState, item: Item) {
    !InFootprint(item, applied) || Undeleted(w, applied, item)
  }

  /** The exact fate of every item outside the new footprint, whatever fails: it is still the daemon's
      after a reconcile if and only if it was before, the teardown left it, and establishing the config,
      if there is one to establish, did not take it. */
  lemma ReconcileOwnsIff(w: World, c: Config, valid: bool, applied: AppliedState, item: Item)
    requires w.Valid()
    requires valid && c.tunnel.enabled ==>
               c.tunnel.remoteEndpoint != "" && c.server.wanInterface != "" && !InFootprint(item, BuildApplied(c))
    ensures item in Reconcile(w, c, valid, applied).world.owned <==>
            && item in w.owned
            && SurvivesTeardown(w, applied, item)
            && !(valid && c.tunnel.enabled && EstablishTakes(Teardown(w, applied), c, item))
  {
    hide World.Valid, World.Calm, Teardown, Establish, BuildApplied, Items, InFootprint, TeardownScript,
         AllDeletionsFail, EstablishTakes;
    var down := Teardown(w, applied);
    TeardownReduces(w, applied);
    ReducedValid(w, down);
    hide Onward;
    if item in w.owned {
      TeardownLeaves(w, applied, item);
    }
    if valid && c.tunnel.enabled {
      ItemsAreFootprint(c, item);
      EstablishOwnsIff(down, c, item);
    }
  }

  // ---------------------------------------------------------------- what a success takes

  lemma {:induction false} ManagedNotReset(w: World, ns: seq<NetworkConfig>, managed: set<string>, dev: string)
    requires dev in managed
    ensures !Resets(w, ns, managed, dev)
    decreases |ns|
  {
    hide ReadyNetwork, ResetStarts;
    if ns != [] && ReadyNetwork(w, ns[0], managed).err.None? {
      ManagedNotReset(ReadyNetwork(w, ns[0], managed).world, ns[1..], managed + {ns[0].iface}, dev);
    }
  }

  lemma ResetStartsIff(w: World, dev: string)
    requires w.Valid() && ReadyInterface(w, dev).err.None?
    ensures ResetStarts(w, dev) <==> w.kernel.net.BrokenLinkLocal(dev)
  {
    hide World.Valid, RunAll, Exec, Onward, Network.BrokenLinkLocal, Run;
    var a := Run(w, Addr(AcceptDadOff(dev)));
    DadOff(w, dev);
    var d := Exec(a.world, Read(ShowAddr6(dev)));
    ReadLeavesKernel(a.world, ShowAddr6(dev));
    BrokenSame(w.kernel.net, d.world.kernel.net, dev);
    RunTwo(d.world, Addr(DisableIPv6(dev)), Addr(EnableIPv6(dev)));
  }

  lemma BrokenElsewhere(n: Network, n': Network, dev: string)
    requires forall key: Key :: key.0 == dev ==> SameEntry(n.addrs, n'.addrs, key)
    ensures n.BrokenLinkLocal(dev) <==> n'.BrokenLinkLocal(dev)
  {
    hide IsLinkLocal;
    if n.BrokenLinkLocal(dev) {
      var key :| key in n.addrs.Keys && key.0 == dev && IsLinkLocal(key.1.addr) && !n.addrs[key];
      assert SameEntry(n.addrs, n'.addrs, key);
      assert key in n'.addrs.Keys;
    }
    if n'.BrokenLinkLocal(dev) {
      var key :| key in n'.addrs.Keys && key.0 == dev && IsLinkLocal(key.1.addr) && !n'.addrs[key];
      assert SameEntry(n.addrs, n'.addrs, key);
      assert key in n.addrs.Keys;
    }
  }

  /** A loop that succeeds has reset exactly the devices it uses that had a broken link-local address. */
  lemma {:induction false} ResetsIff(w: World, ns: seq<NetworkConfig>, managed: set<string>, dev: string)
    requires w.Valid() && dev !in managed && ReadyNetworks(w, ns, managed).err.None?
    ensures Resets(w, ns, managed, dev) <==> Uses(ns, dev) && w.kernel.net.BrokenLinkLocal(dev)
    decreases |ns|
  {
    hide World.Valid, ReadyNetwork, ResetStarts, Uses, Network.BrokenLinkLocal;
    if ns == [] {
      UsesNothing(dev);
    } else {
      UsesStep(ns, dev);
      var a := ReadyNetwork(w, ns[0], managed);
      ReadyNetworkHandles(w, ns[0], managed);
      HandledValid(w, ns[0], ns[0].iface !in managed, a);
      if ns[0].iface == dev {
        ReadyFirst(w, ns[0], managed);
        ResetStartsIff(w, dev);
        ManagedNotReset(a.world, ns[1..], managed + {dev}, dev);
      } else {
        HandledElsewhere(w, ns[0], ns[0].iface !in managed, a, dev);
        ResetsIff(a.world, ns[1..], managed + {ns[0].iface}, dev);
      }
      hide Handled, Onward;
    }
  }

  lemma UsesNothing(dev: string)
    ensures !Uses([], dev)
  {
  }

  lemma ReadyFirst(w: World, nw: NetworkConfig, managed: set<string>)
    requires nw.iface !in managed && ReadyNetwork(w, nw, managed).err.None?
    ensures ReadyInterface(w, nw.iface).err.None?
  {
    hide ReadyInterface, EnsureAddress, GatewayForPrefix;
  }

  lemma HandledElsewhere(w: World, nw: NetworkConfig, toggled: bool, o: Outcome, dev: string)
    requires Handled(w, nw, toggled, o) && dev != nw.iface
    ensures w.kernel.net.BrokenLinkLocal(dev) <==> o.world.kernel.net.BrokenLinkLocal(dev)
  {
    hide Onward, KeepsHealthy, NetworkHealthy, IsThere, OnlyAddressing, GatewayItems, Network.BrokenLinkLocal;
    BrokenElsewhere(w.kernel.net, o.world.kernel.net, dev);
  }

  /** What a successful run takes, told beforehand: the addresses of the LAN devices with a broken
      link-local address, and another route to the same endpoint. */
  predicate SuccessTakes(n: Network, c: Config, item: Item) {
    match item
    case EndpointRoute(_, e) => e == c.tunnel.remoteEndpoint
    case LanAddress(dev, _) => c.lan.enabled && Uses(c.lan.networks, dev) && n.BrokenLinkLocal(dev)
  }

  lemma AddressesResetIff(w: World, c: Config, dev: string)
    requires w.Valid() && dev != TUNNEL && BringUpAddresses(w, c).err.None?
    ensures AddressesReset(w, c, dev) <==> c.lan.enabled && Uses(c.lan.networks, dev) && w.kernel.net.BrokenLinkLocal(dev)
  {
    hide World.Valid, EnsureAddress, Run, ReadyNetworks, Resets, AddressesFrame, Uses, Network.BrokenLinkLocal;
    var a := EnsureAddress(w, TUNNEL, c.tunnel.localIPv6);
    EnsureAddressEnsures(w, TUNNEL, c.tunnel.localIPv6);
    EnsuredFrame(w, TUNNEL, c.tunnel.localIPv6, a);
    TunnelAddressFrame(w, c);
    AddressesFrameValid(w, c, a.world);
    BrokenElsewhere(w.kernel.net, a.world.kernel.net, dev);
    var f := Run(a.world, Routing(ForwardingOn));
    ForwardingFrame(a.world, c);
    AddressesFrameValid(a.world, c, f.world);
    BrokenSame(a.world.kernel.net, f.world.kernel.net, dev);
    hide Ensured, Onward;
    if c.lan.enabled {
      ResetsIff(f.world, c.lan.networks, {}, dev);
    }
  }

  lemma LinkReplacesRoute(w: World, c: Config, wan4: string)
    requires BringUpLink(w, c, wan4).err.None?
    ensures RouteReplaced(w, c, wan4)
  {
    var w0 := BestEffort(w, [Read(Modprobe)]);
    var r := Routing(RouteReplace(c.tunnel.remoteEndpoint, c.server.wanInterface, wan4));
    var rest := [Tunnel(TunnelAdd(c.tunnel.remoteEndpoint, wan4, c.tunnel.ttl)), Tunnel(LinkSetMtu(c.tunnel.mtu)), Tunnel(LinkSetUp)];
    assert LinkScript(c, wan4) == [r] + rest;
    hide BestEffort, RunAll, Run;
    RunAllStep(w0, r, rest);
  }

  lemma BringUpTakesIff(w: World, c: Config, wan4: string, item: Item)
    requires w.Valid() && BringUp(w, c, wan4).err.None?
    requires item.LanAddress? ==> item.dev != TUNNEL
    ensures BringUpTakes(w, c, wan4, item) <==> SuccessTakes(w.kernel.net, c, item)
  {
    hide World.Valid, BringUpLink, BringUpAddresses, BringUpRoute, FirewallUp, AddressesReset, RouteReplaced, Onward,
         Uses, Network.BrokenLinkLocal;
    LinkReplacesRoute(w, c, wan4);
    var l := BringUpLink(w, c, wan4);
    BringUpLinkFrame(w, c, wan4);
    LinkFrameValid(w, c, l.world);
    if item.LanAddress? {
      AddressesResetIff(l.world, c, item.dev);
      BrokenElsewhere(w.kernel.net, l.world.kernel.net, item.dev);
    }
  }

  /** A reconcile that succeeds takes exactly what one can tell beforehand, on the kernel the teardown
      leaves. */
  lemma SuccessTakesExactly(w: World, c: Config, item: Item)
    requires w.Valid() && Establish(w, c).err.None?
    requires item.LanAddress? ==> item.dev != TUNNEL
    ensures EstablishTakes(w, c, item) <==> SuccessTakes(w.kernel.net, c, item)
  {
    hide World.Valid, ReadWAN4, ResolveMTU, BringUp, World.Calm, SameSurroundings, BringUpTakes, Onward, Uses,
         Network.BrokenLinkLocal;
    var wan := c.server.wanInterface;
    var ip := ReadWAN4(w, wan);
    ReadWAN4Reads(w, wan);
    OnwardValid(w, ip.world);
    var mtu := ResolveMTU(ip.world, c.tunnel.mtu, wan);
    ResolveMTUReads(ip.world, c.tunnel.mtu, wan);
    OnwardValid(ip.world, mtu.world);
    BringUpTakesIff(mtu.world, WithMTU(c, mtu.value.value), ip.value.value, item);
  }
}
