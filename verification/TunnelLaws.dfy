/** A LAN network on the tunnel device: exactly when the tunnel keeps its own address. */
module TunnelLaws {
  import opened Options
  import opened Addresses
  import opened Kernel
  import opened Config
  import opened Backend
  import opened AddressLaws
  import opened LanLaws
  import opened TeardownLaws
  import opened FirewallLaws
  import opened LinkLaws
  import opened ReconcileLaws
  import opened Convergence
  import opened OwnershipLaws
  import opened Limits

  /** The address is the gateway of some network on the device. */
  predicate GatewayOn(ns: seq<NetworkConfig>, dev: string, p: Prefix) {
    exists i :: 0 <= i < |ns| && IsGatewayOn(ns[i], dev, p)
  }

  predicate IsGatewayOn(nw: NetworkConfig, dev: string, p: Prefix) {
    nw.iface == dev && GatewayOf(nw.prefix) == Some(p)
  }

  lemma GatewayOnStep(ns: seq<NetworkConfig>, dev: string, p: Prefix)
    requires ns != []
    ensures GatewayOn(ns, dev, p) <==> IsGatewayOn(ns[0], dev, p) || GatewayOn(ns[1..], dev, p)
  {
    hide IsGatewayOn;
    if i :| 0 <= i < |ns| && IsGatewayOn(ns[i], dev, p) {
      assert i > 0 ==> ns[1..][i - 1] == ns[i];
    }
    if i :| 0 <= i < |ns[1..]| && IsGatewayOn(ns[1..][i], dev, p) {
      assert ns[1..][i] == ns[i + 1];
    }
  }

  // ---------------------------------------------------------------- any address of any device

  lemma EnsureElsewhere(w: World, dev: string, text: PrefixText, key: Key)
    requires w.Valid() && (text.Parse().Some? ==> key != (dev, text.Parse().value))
    ensures SameEntry(w.kernel.net.addrs, EnsureAddress(w, dev, text).world.kernel.net.addrs, key)
  {
    hide World.Valid, EnsureAddress, Onward;
    EnsureAddressEnsures(w, dev, text);
  }

  /** Handling one network wipes an address that is not its gateway exactly if it resets the address's
      device, and leaves it as it is otherwise. */
  lemma {:induction false} ReadyNetworkKeeps(w: World, nw: NetworkConfig, managed: set<string>, key: Key)
    requires w.Valid() && ReadyNetwork(w, nw, managed).err.None?
    requires !IsGatewayOn(nw, key.0, key.1) && !IsLinkLocal(key.1.addr)
    ensures var n, n' := w.kernel.net, ReadyNetwork(w, nw, managed).world.kernel.net;
            if nw.iface == key.0 && key.0 !in managed && n.BrokenLinkLocal(key.0) then key !in n'.addrs
            else SameEntry(n.addrs, n'.addrs, key)
  {
    hide World.Valid, EnsureAddress, ReadyInterface, GatewayForPrefix, GatewayOf, Network.BrokenLinkLocal, IsLinkLocal,
         Onward;
    if nw.iface != key.0 {
      ReadyNetworkHandles(w, nw, managed);
    } else {
      var r := if nw.iface in managed then Outcome(w, None) else ReadyInterface(w, nw.iface);
      GatewayTextParses(nw.prefix);
      if nw.iface !in managed {
        ReadyInterfaceReadies(w, nw.iface);
        ReadiedValid(w, nw.iface, r);
        if w.kernel.net.BrokenLinkLocal(key.0) {
          ReadyingWipes(w, key.0, key.1);
        }
      }
      EnsureElsewhere(r.world, nw.iface, GatewayForPrefix(nw.prefix).value, key);
    }
  }

  lemma {:induction false} LoopKeeps(w: World, ns: seq<NetworkConfig>, managed: set<string>, key: Key)
    requires w.Valid() && ReadyNetworks(w, ns, managed).err.None?
    requires !GatewayOn(ns, key.0, key.1) && !IsLinkLocal(key.1.addr)
    ensures var n, n' := w.kernel.net, ReadyNetworks(w, ns, managed).world.kernel.net;
            if Uses(ns, key.0) && key.0 !in managed && n.BrokenLinkLocal(key.0) then key !in n'.addrs
            else SameEntry(n.addrs, n'.addrs, key)
    decreases |ns|
  {
    hide World.Valid, ReadyNetwork, Uses, Network.BrokenLinkLocal, GatewayOn, IsGatewayOn, IsLinkLocal, Onward;
    if ns == [] {
      UsesNothing(key.0);
    } else {
      UsesStep(ns, key.0);
      GatewayOnStep(ns, key.0, key.1);
      var a := ReadyNetwork(w, ns[0], managed);
      ReadyNetworkHandles(w, ns[0], managed);
      HandledValid(w, ns[0], ns[0].iface !in managed, a);
      ReadyNetworkKeeps(w, ns[0], managed, key);
      if ns[0].iface != key.0 {
        HandledElsewhere(w, ns[0], ns[0].iface !in managed, a, key.0);
      }
      hide Handled;
      LoopKeeps(a.world, ns[1..], managed + {ns[0].iface}, key);
    }
  }

  lemma GatewayIsHealthy(n: Network, ns: seq<NetworkConfig>, dev: string, p: Prefix)
    requires AllNetworksHealthy(n, ns) && GatewayOn(ns, dev, p)
    ensures IsHealthy(n, dev, PrefixText(p))
  {
    hide GatewayOf, GatewayForPrefix;
    var i :| 0 <= i < |ns| && IsGatewayOn(ns[i], dev, p);
    GatewayTextParses(ns[i].prefix);
    assert NetworkHealthy(n, ns[i]);
  }

  /** The LAN loop leaves a usable address usable exactly if it does not reset the address's device, or puts
      the address back as a gateway. */
  lemma {:induction false} LoopLeavesIff(w: World, ns: seq<NetworkConfig>, dev: string, p: Prefix)
    requires w.Valid() && ReadyNetworks(w, ns, {}).err.None?
    requires IsHealthy(w.kernel.net, dev, PrefixText(p)) && !IsLinkLocal(p.addr)
    ensures IsHealthy(ReadyNetworks(w, ns, {}).world.kernel.net, dev, PrefixText(p)) <==>
            GatewayOn(ns, dev, p) || !Uses(ns, dev) || !w.kernel.net.BrokenLinkLocal(dev)
  {
    hide World.Valid, ReadyNetworks, Uses, Network.BrokenLinkLocal, GatewayOn, IsLinkLocal, AllNetworksHealthy;
    if GatewayOn(ns, dev, p) {
      ReadyNetworksEstablish(w, ns, {}, {});
      GatewayIsHealthy(ReadyNetworks(w, ns, {}).world.kernel.net, ns, dev, p);
    } else {
      LoopKeeps(w, ns, {}, (dev, p));
    }
  }

  // ---------------------------------------------------------------- the whole reconcile

  /** The world in which the addresses stage turns to LAN. */
  function BeforeLAN(w: World, c: Config): World {
    Run(EnsureAddress(w, TUNNEL, c.tunnel.localIPv6).world, Routing(ForwardingOn)).world
  }

  lemma {:induction false} AddressesKeepIff(w: World, c: Config, p: Prefix)
    requires w.Valid() && c.lan.enabled && BringUpAddresses(w, c).err.None?
    requires c.tunnel.localIPv6.Parse() == Some(p) && !IsLinkLocal(p.addr)
    ensures AllHealthy(BringUpAddresses(w, c).world.kernel.net, c) <==>
            || GatewayOn(c.lan.networks, TUNNEL, p)
            || !Uses(c.lan.networks, TUNNEL)
            || !BeforeLAN(w, c).kernel.net.BrokenLinkLocal(TUNNEL)
  {
    hide World.Valid, EnsureAddress, Run, ReadyNetworks, AllNetworksHealthy, IsHealthy, GatewayOn, Uses,
         Network.BrokenLinkLocal, IsLinkLocal;
    var a := EnsureAddress(w, TUNNEL, c.tunnel.localIPv6);
    EnsureAddressEnsures(w, TUNNEL, c.tunnel.localIPv6);
    OnwardValid(w, a.world);
    var f := Run(a.world, Routing(ForwardingOn));
    ForwardingFrame(a.world, c);
    AddressesFrameValid(a.world, c, f.world);
    assert f.world.kernel.net.addrs == a.world.kernel.net.addrs;
    SameEntryHealthy(a.world.kernel.net, f.world.kernel.net, TUNNEL, c.tunnel.localIPv6);
    hide Ensured, Onward;
    ReadyNetworksEstablish(f.world, c.lan.networks, {}, {});
    LoopLeavesIff(f.world, c.lan.networks, TUNNEL, p);
  }

  /** The world in which a reconcile turns to LAN. */
  function LANWorld(w: World, c: Config): World {
    var wan := c.server.wanInterface;
    var ip := ReadWAN4(w, wan);
    var mtu := ResolveMTU(ip.world, c.tunnel.mtu, wan);
    if ip.value.None? || mtu.value.None? then mtu.world
    else
      var resolved := WithMTU(c, mtu.value.value);
      BeforeLAN(BringUpLink(mtu.world, resolved, ip.value.value).world, resolved)
  }

  lemma {:induction false} BringUpKeepsIff(w: World, c: Config, wan4: string, p: Prefix)
    requires w.Valid() && c.lan.enabled && BringUp(w, c, wan4).err.None?
    requires c.tunnel.localIPv6.Parse() == Some(p) && !IsLinkLocal(p.addr)
    ensures AllHealthy(BringUp(w, c, wan4).world.kernel.net, c) <==>
            || GatewayOn(c.lan.networks, TUNNEL, p)
            || !Uses(c.lan.networks, TUNNEL)
            || !BeforeLAN(BringUpLink(w, c, wan4).world, c).kernel.net.BrokenLinkLocal(TUNNEL)
  {
    hide World.Valid, BringUpLink, BringUpAddresses, BringUpRoute, FirewallUp, AllHealthy, GatewayOn, Uses,
         Network.BrokenLinkLocal, IsLinkLocal, BeforeLAN, Network.Assigned;
    var l := BringUpLink(w, c, wan4);
    BringUpLinkFrame(w, c, wan4);
    LinkFrameValid(w, c, l.world);
    var a := BringUpAddresses(l.world, c);
    BringUpAddressesFrame(l.world, c);
    AddressesFrameValid(l.world, c, a.world);
    AddressesKeepIff(l.world, c, p);
    var r := BringUpRoute(a.world, c);
    BringUpRouteFrame(a.world, c);
    OnwardValid(a.world, r.world);
    FirewallUpOnlyFirewall(r.world, c.server.wanInterface);
    AllHealthySame(a.world.kernel.net, r.world.kernel.net, c);
    hide Onward, OnlyLink, World.Calm;
  }

  lemma {:induction false} EstablishKeepsIff(w: World, c: Config, p: Prefix)
    requires w.Valid() && c.lan.enabled && Establish(w, c).err.None?
    requires c.tunnel.localIPv6.Parse() == Some(p) && !IsLinkLocal(p.addr)
    ensures AllHealthy(Establish(w, c).world.kernel.net, c) <==>
            || GatewayOn(c.lan.networks, TUNNEL, p)
            || !Uses(c.lan.networks, TUNNEL)
            || !LANWorld(w, c).kernel.net.BrokenLinkLocal(TUNNEL)
  {
    hide World.Valid, ReadWAN4, ResolveMTU, World.Calm, BringUp, BringUpLink, BeforeLAN, GatewayOn, Uses,
         Network.BrokenLinkLocal, IsLinkLocal, IsHealthy, AllNetworksHealthy;
    var wan := c.server.wanInterface;
    var ip := ReadWAN4(w, wan);
    ReadWAN4Reads(w, wan);
    OnwardValid(w, ip.world);
    var mtu := ResolveMTU(ip.world, c.tunnel.mtu, wan);
    ResolveMTUReads(ip.world, c.tunnel.mtu, wan);
    OnwardValid(ip.world, mtu.world);
    BringUpKeepsIff(mtu.world, WithMTU(c, mtu.value.value), ip.value.value, p);
  }

  /** Convergence without a word on where LAN networks may be. After a successful reconcile with LAN
      enabled every managed address is usable, if and only if no network is on the tunnel device, or that
      device had no broken link-local address when LAN's turn came, or its own address is the gateway of
      such a network too. */
  lemma {:induction false} AllHealthyIff(w: World, c: Config, applied: AppliedState, p: Prefix)
    requires w.Valid() && c.tunnel.enabled && c.lan.enabled && Reconcile(w, c, true, applied).err.None?
    requires c.tunnel.localIPv6.Parse() == Some(p) && !IsLinkLocal(p.addr)
    ensures AllHealthy(Reconcile(w, c, true, applied).world.kernel.net, c) <==>
            || GatewayOn(c.lan.networks, TUNNEL, p)
            || !Uses(c.lan.networks, TUNNEL)
            || !LANWorld(Teardown(w, applied), c).kernel.net.BrokenLinkLocal(TUNNEL)
  {
    hide World.Valid, Teardown, Establish, LANWorld, GatewayOn, Uses, Network.BrokenLinkLocal, IsLinkLocal, AllHealthy,
         Onward;
    var down := Teardown(w, applied);
    TeardownReduces(w, applied);
    ReducedValid(w, down);
    EstablishKeepsIff(down, c, p);
  }
}
