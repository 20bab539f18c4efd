/** A whole reconcile: what it establishes when it succeeds, and what the daemon owns afterwards. */
module ReconcileLaws {
  import opened Options
  import opened Addresses
  import opened Kernel
  import opened Config
  import opened Backend
  import opened AddressLaws
  import opened LanLaws
  import opened TeardownLaws
  import opened FirewallLaws
  import opened LinkLaws

  // ---------------------------------------------------------------- what each stage may change

  /** The addresses stage: switches, addresses and forwarding, nothing else. */
  ghost predicate AddressesFrame(w: World, c: Config, w': World) {
    && Onward(w, w')
    && w'.owned <= w.owned + AllGatewayItems(c.lan.networks)
    && w'.kernel.fw == w.kernel.fw
    && w'.kernel.net == w.kernel.net.(addrs := w'.kernel.net.addrs, dadOff := w'.kernel.net.dadOff,
                                      ipv6Off := w'.kernel.net.ipv6Off, forwarding := w'.kernel.net.forwarding)
  }

  lemma {:induction false} AddressesFrameTrans(a: World, c: Config, b: World, d: World)
    requires AddressesFrame(a, c, b) && AddressesFrame(b, c, d)
    ensures AddressesFrame(a, c, d)
  {
    OnwardTrans(a, b, d);
    hide Onward, AllGatewayItems;
  }

  /** The daemon owns no address of the tunnel device. */
  lemma OwnsNoTunnelAddress(w: World, w': World, p: Prefix)
    requires w'.Valid() && w'.owned <= w.owned + {LanAddress(TUNNEL, p)}
    ensures w'.owned <= w.owned
  {
    forall item <- w'.owned
      ensures item in w.owned
    {
      assert item.LanAddress? ==> item.dev != TUNNEL;
    }
  }

  lemma TunnelAddressFrame(w: World, c: Config)
    requires w.Valid()
    ensures AddressesFrame(w, c, EnsureAddress(w, TUNNEL, c.tunnel.localIPv6).world)
  {
    var text := c.tunnel.localIPv6;
    var o := EnsureAddress(w, TUNNEL, text);
    EnsureAddressEnsures(w, TUNNEL, text);
    hide EnsureAddress, World.Valid, AllGatewayItems;
    if text.Parse().Some? {
      OnwardValid(w, o.world);
      OwnsNoTunnelAddress(w, o.world, text.Parse().value);
    }
    hide Onward;
  }

  lemma ForwardingFrame(w: World, c: Config)
    requires w.Valid()
    ensures AddressesFrame(w, c, Run(w, Routing(ForwardingOn)).world)
    ensures var o := Run(w, Routing(ForwardingOn));
            o.err.None? ==> o.world.kernel.net == w.kernel.net.(forwarding := true)
    ensures w.Calm() ==> Run(w, Routing(ForwardingOn)).err.None?
  {
    RunOnward(w, Routing(ForwardingOn));
    hide Onward, World.Valid, AllGatewayItems;
  }

  lemma {:induction false} NetworksFrame(w: World, c: Config)
    requires w.Valid()
    ensures AddressesFrame(w, c, ReadyNetworks(w, c.lan.networks, {}).world)
  {
    ReadyNetworksFrame(w, c.lan.networks, {});
    hide ReadyNetworks, Onward, World.Valid, AllGatewayItems;
  }

  lemma AddressesFrameValid(w: World, c: Config, w': World)
    requires AddressesFrame(w, c, w')
    ensures w'.Valid() && Onward(w, w')
  {
  }

  lemma BringUpAddressesFrame(w: World, c: Config)
    requires w.Valid()
    ensures AddressesFrame(w, c, BringUpAddresses(w, c).world)
  {
    hide AddressesFrame, EnsureAddress, Run, ReadyNetworks, World.Valid;
    var a := EnsureAddress(w, TUNNEL, c.tunnel.localIPv6);
    TunnelAddressFrame(w, c);
    AddressesFrameValid(w, c, a.world);
    if a.err.None? {
      var f := Run(a.world, Routing(ForwardingOn));
      ForwardingFrame(a.world, c);
      AddressesFrameValid(a.world, c, f.world);
      AddressesFrameTrans(w, c, a.world, f.world);
      NetworksFrame(f.world, c);
      AddressesFrameTrans(w, c, f.world, ReadyNetworks(f.world, c.lan.networks, {}).world);
    }
  }

  function ChosenSource(c: Config): Option<Address> {
    var s := SelectSource(c);
    if s.Source? then Some(s.address) else None
  }

  /** The route stage: the default route and nothing else; a source address has to be assigned. */
  lemma {:induction false} BringUpRouteFrame(w: World, c: Config)
    requires w.Valid()
    ensures var o := BringUpRoute(w, c);
            && Onward(w, o.world)
            && o.world.owned <= w.owned
            && o.world.kernel.fw == w.kernel.fw
            && o.world.kernel.net == w.kernel.net.(default6 := o.world.kernel.net.default6)
            && (o.err.None? ==> o.world.kernel.net.default6 == Some(DefaultRoute(ChosenSource(c))))
            && (o.err.None? && ChosenSource(c).Some? ==> w.kernel.net.Assigned(ChosenSource(c).value))
  {
    if !SelectSource(c).BadSource? {
      RunOnward(w, Routing(Route6Replace(ChosenSource(c))));
    } else {
      OnlyFirewallRefl(w);
    }
    hide World.Valid, World.Calm, SelectSource, Network.Assigned, Onward, Present;
  }

  /** Everything an establishing reconcile may come to own. */
  function Items(c: Config): set<Item> {
    AllGatewayItems(c.lan.networks) + {EndpointRoute(c.server.wanInterface, c.tunnel.remoteEndpoint)}
  }

  ghost predicate Owns(w: World, c: Config, w': World) {
    Onward(w, w') && w'.owned <= w.owned + Items(c)
  }

  lemma BringUpOwns(w: World, c: Config, wan4: string)
    requires w.Valid()
    ensures Owns(w, c, BringUp(w, c, wan4).world)
  {
    hide World.Valid, BringUpLink, BringUpAddresses, BringUpRoute, FirewallUp, AllGatewayItems, World.Calm,
         SameSurroundings;
    var l := BringUpLink(w, c, wan4);
    BringUpLinkFrame(w, c, wan4);
    LinkFrameValid(w, c, l.world);
    if l.err.None? {
      var a := BringUpAddresses(l.world, c);
      BringUpAddressesFrame(l.world, c);
      AddressesFrameValid(l.world, c, a.world);
      OnwardTrans(w, l.world, a.world);
      if a.err.None? {
        var r := BringUpRoute(a.world, c);
        BringUpRouteFrame(a.world, c);
        OnwardTrans(w, a.world, r.world);
        if r.err.None? {
          OnwardValid(a.world, r.world);
          FirewallUpOnlyFirewall(r.world, c.server.wanInterface);
          OnwardTrans(w, r.world, FirewallUp(r.world, c.server.wanInterface));
        }
      }
    }
    hide Onward, OnlyLink;
  }

  /** The config with another MTU. */
  function WithMTU(c: Config, mtu: int): Config {
    c.(tunnel := c.tunnel.(mtu := mtu))
  }

  lemma ReadWAN4Reads(w: World, dev: string)
    requires w.Valid()
    ensures var r := ReadWAN4(w, dev);
            && Onward(w, r.world) && r.world.kernel == w.kernel && r.world.owned == w.owned
            && (r.value.Some? <==> r.err.None?)
            && (r.value.Some? ==> dev in w.kernel.net.wan4 && r.value.value == w.kernel.net.wan4[dev] && w.kernel.net.HasDevice(dev))
            && (w.Calm() ==> (r.value.Some? <==> w.kernel.net.HasDevice(dev) && dev in w.kernel.net.wan4))
  {
    ExecOnward(w, Read(ShowAddr4(dev)));
    ReadLeavesKernel(w, ShowAddr4(dev));
    hide Onward, World.Valid;
  }

  lemma ResolveMTUReads(w: World, configured: int, dev: string)
    requires w.Valid()
    ensures var r := ResolveMTU(w, configured, dev);
            && Onward(w, r.world) && r.world.kernel == w.kernel && r.world.owned == w.owned
            && (r.value.Some? <==> r.err.None?)
            && (configured > 0 ==> r.value == Some(configured))
            && (configured <= 0 && r.value.Some? ==>
                 && dev in w.kernel.net.links
                 && r.value.value == w.kernel.net.links[dev] - TUNNEL_OVERHEAD
                 && r.value.value >= MINIMUM_IPV6_MTU)
            && (w.Calm() && configured <= 0 ==>
                 (r.value.Some? <==> w.kernel.net.HasDevice(dev) && dev in w.kernel.net.links
                                     && w.kernel.net.links[dev] - TUNNEL_OVERHEAD >= MINIMUM_IPV6_MTU))
  {
    ExecOnward(w, Read(ShowLink(dev)));
    ReadLeavesKernel(w, ShowLink(dev));
    OnlyFirewallRefl(w);
    hide Onward, World.Valid;
  }

  /** Establishing keeps to the config's own items and resolves nothing but the MTU. */
  lemma EstablishOwns(w: World, c: Config)
    requires w.Valid()
    ensures var r := Establish(w, c);
            && Owns(w, c, r.world)
            && r.config == WithMTU(c, r.config.tunnel.mtu)
  {
    hide World.Valid, ReadWAN4, ResolveMTU, BringUp, World.Calm, SameSurroundings, AllGatewayItems;
    var ip := ReadWAN4(w, c.server.wanInterface);
    ReadWAN4Reads(w, c.server.wanInterface);
    OnwardValid(w, ip.world);
    if ip.value.Some? {
      var mtu := ResolveMTU(ip.world, c.tunnel.mtu, c.server.wanInterface);
      ResolveMTUReads(ip.world, c.tunnel.mtu, c.server.wanInterface);
      OnwardTrans(w, ip.world, mtu.world);
      OnwardValid(ip.world, mtu.world);
      if mtu.value.Some? {
        var resolved := WithMTU(c, mtu.value.value);
        assert Items(resolved) == Items(c);
        BringUpOwns(mtu.world, resolved, ip.value.value);
        OnwardTrans(w, mtu.world, BringUp(mtu.world, resolved, ip.value.value).world);
      }
    }
    hide Onward, Items;
  }

  // ---------------------------------------------------------------- ownership over a reconcile

  lemma {:induction false} GatewayItemsInFootprint(ns: seq<NetworkConfig>, item: Item)
    ensures item in AllGatewayItems(ns) <==> GatewayAmong(StatusOf(ns), item)
  {
    if ns != [] {
      GatewayItemsInFootprint(ns[1..], item);
      GatewayAmongStep(StatusOf(ns), item);
      assert StatusOf(ns)[1..] == StatusOf(ns[1..]);
      hide GatewayAmong, GatewayOf;
    } else {
      hide GatewayOf;
    }
  }

  /** What an establishing reconcile may come to own is what the recorded footprint covers. */
  lemma ItemsAreFootprint(c: Config, item: Item)
    requires c.tunnel.remoteEndpoint != "" && c.server.wanInterface != ""
    ensures item in Items(c) <==> InFootprint(item, BuildApplied(c))
  {
    GatewayItemsInFootprint(c.lan.networks, item);
    hide AllGatewayItems, GatewayOf;
  }

  /** What the daemon owns after a reconcile, whatever went wrong in it: items of the new config's
      footprint, and what the teardown left of what it owned before. */
  lemma ReconcileOwns(w: World, c: Config, valid: bool, applied: AppliedState, item: Item)
    requires w.Valid()
    requires valid && c.tunnel.enabled ==> c.tunnel.remoteEndpoint != "" && c.server.wanInterface != ""
    requires item in Reconcile(w, c, valid, applied).world.owned
    ensures (valid && c.tunnel.enabled && InFootprint(item, BuildApplied(c))) || item in Teardown(w, applied).owned
  {
    hide World.Valid, World.Calm, Teardown, Establish, BuildApplied, Items, InFootprint;
    var down := Teardown(w, applied);
    TeardownReduces(w, applied);
    ReducedValid(w, down);
    if item !in down.owned {
      EstablishOwns(down, c);
      ItemsAreFootprint(c, item);
      hide Onward;
    }
  }

  lemma ReconcileOnward(w: World, c: Config, valid: bool, applied: AppliedState)
    requires w.Valid()
    ensures Onward(w, Reconcile(w, c, valid, applied).world)
    ensures var r := Reconcile(w, c, valid, applied); r.config == WithMTU(c, r.config.tunnel.mtu)
  {
    hide World.Valid, Teardown, Establish;
    var down := Teardown(w, applied);
    TeardownReduces(w, applied);
    ReducedValid(w, down);
    if valid && c.tunnel.enabled {
      EstablishOwns(down, c);
      OnwardTrans(w, down, Establish(down, c).world);
    }
    hide Onward;
  }
}
