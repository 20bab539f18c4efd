/** The LAN loop of a reconcile: every gateway ends up usable, and the IPv6 reset of a device never
    wipes a gateway added earlier in the same loop. */
module LanLaws {
  import opened Options
  import opened Addresses
  import opened Kernel
  import opened Config
  import opened Backend
  import opened AddressLaws

  /** Only addresses and the two per-device switches may change. */
  ghost predicate OnlyAddressing(k: Kernel, k': Kernel) {
    && k'.fw == k.fw
    && k'.net == k.net.(addrs := k'.net.addrs, dadOff := k'.net.dadOff, ipv6Off := k'.net.ipv6Off)
    && k.net.dadOff <= k'.net.dadOff
  }

  predicate NetworkHealthy(n: Network, nw: NetworkConfig) {
    var g := GatewayForPrefix(nw.prefix);
    g.Some? && IsHealthy(n, nw.iface, g.value)
  }

  /** Usable addresses of the devices in `keep` stay usable. */
  ghost predicate KeepsHealthy(n: Network, n': Network, keep: set<string>) {
    forall key: Key :: key.0 in keep && key in n.addrs && n.addrs[key] ==> key in n'.addrs && n'.addrs[key]
  }

  /** The address a network's gateway becomes. */
  function GatewayItems(nw: NetworkConfig): set<Item> {
    var g := GatewayOf(nw.prefix);
    if g.Some? then {LanAddress(nw.iface, g.value)} else {}
  }

  function AllGatewayItems(ns: seq<NetworkConfig>): set<Item> {
    if ns == [] then {} else GatewayItems(ns[0]) + AllGatewayItems(ns[1..])
  }

  lemma GatewayTextParses(text: PrefixText)
    ensures GatewayForPrefix(text).None? ==> text.Parse().None? && GatewayOf(text).None?
    ensures GatewayForPrefix(text).Some? ==> GatewayForPrefix(text).value.Parse() == GatewayOf(text)
  {
  }

  // ---------------------------------------------------------------- one network

  /** What handling one network promises; `toggled` says whether the device may have been reset. */
  ghost predicate Handled(w: World, nw: NetworkConfig, toggled: bool, o: Outcome) {
    && Onward(w, o.world)
    && OnlyAddressing(w.kernel, o.world.kernel)
    && o.world.owned <= w.owned + GatewayItems(nw)
    && w.kernel.net.ipv6Off <= o.world.kernel.net.ipv6Off
    && (forall key: Key :: key.0 != nw.iface ==> SameEntry(w.kernel.net.addrs, o.world.kernel.net.addrs, key))
    && (forall d :: d != nw.iface ==> (d in o.world.kernel.net.ipv6Off <==> d in w.kernel.net.ipv6Off))
    && (!toggled ==> KeepsHealthy(w.kernel.net, o.world.kernel.net, {nw.iface}))
    && (o.err.None? ==>
         && o.world.kernel.net.ipv6Off == w.kernel.net.ipv6Off
         && (toggled ==> nw.iface in o.world.kernel.net.dadOff)
         && GatewayForPrefix(nw.prefix).Some?
         && IsThere(o.world.kernel.net, nw.iface, GatewayForPrefix(nw.prefix).value)
         && (NoDad(o.world.kernel.net, nw.iface) ==> NetworkHealthy(o.world.kernel.net, nw)))
  }

  lemma EnsuredKeepsHealthy(w: World, dev: string, text: PrefixText, o: Outcome, keep: set<string>)
    requires Ensured(w, dev, text, o)
    ensures KeepsHealthy(w.kernel.net, o.world.kernel.net, keep)
  {
    hide Onward;
    forall key: Key | key in w.kernel.net.addrs && w.kernel.net.addrs[key]
      ensures key in o.world.kernel.net.addrs && o.world.kernel.net.addrs[key]
    {
      if text.Parse().Some? && key != (dev, text.Parse().value) {
        assert SameEntry(w.kernel.net.addrs, o.world.kernel.net.addrs, key);
      }
    }
  }

  lemma RepairNetworkHandles(w: World, nw: NetworkConfig)
    requires w.Valid()
    ensures Handled(w, nw, false, RepairNetwork(w, nw))
  {
    hide World.Valid, World.Calm, EnsureAddress, Ensured, KeepsHealthy, Onward;
    var o := RepairNetwork(w, nw);
    GatewayTextParses(nw.prefix);
    if GatewayForPrefix(nw.prefix).Some? {
      var text := GatewayForPrefix(nw.prefix).value;
      EnsureAddressEnsures(w, nw.iface, text);
      EnsuredKeepsHealthy(w, nw.iface, text, o, {nw.iface});
      EnsuredFrame(w, nw.iface, text, o);
      EnsuredFacts(w, nw.iface, text, o);
      hide GatewayForPrefix;
    } else {
      NothingHandled(w);
      KeepsRefl(w.kernel.net, {nw.iface});
    }
  }

  lemma NothingHandled(w: World)
    requires w.Valid()
    ensures Onward(w, w)
  {
    hide World.Valid, World.Calm;
  }

  lemma EnsuredFacts(w: World, dev: string, text: PrefixText, o: Outcome)
    requires Ensured(w, dev, text, o)
    ensures Onward(w, o.world)
    ensures text.Parse().None? ==> o.err.Some? && o.world.owned <= w.owned
    ensures text.Parse().Some? ==> o.world.owned <= w.owned + {LanAddress(dev, text.Parse().value)}
    ensures o.err.None? ==> IsThere(o.world.kernel.net, dev, text)
    ensures o.err.None? && NoDad(w.kernel.net, dev) ==> IsHealthy(o.world.kernel.net, dev, text)
  {
    hide Onward;
  }

  lemma EnsuredFrame(w: World, dev: string, text: PrefixText, o: Outcome)
    requires Ensured(w, dev, text, o)
    ensures o.world.kernel.fw == w.kernel.fw
    ensures o.world.kernel.net == w.kernel.net.(addrs := o.world.kernel.net.addrs)
    ensures forall key: Key :: key.0 != dev ==> SameEntry(w.kernel.net.addrs, o.world.kernel.net.addrs, key)
  {
    hide Onward;
    forall key: Key | key.0 != dev
      ensures SameEntry(w.kernel.net.addrs, o.world.kernel.net.addrs, key)
    {
      if text.Parse().Some? {
        assert key != (dev, text.Parse().value);
      }
    }
  }

  /** Making the device ready and then handling the network. */
  lemma {:induction false} HandledAfterReady(w: World, r: Outcome, nw: NetworkConfig, o: Outcome)
    requires Readied(w, nw.iface, r) && r.err.None?
    requires Handled(r.world, nw, false, o)
    ensures Handled(w, nw, true, o)
  {
    OnwardTrans(w, r.world, o.world);
    hide Onward, KeepsHealthy, NetworkHealthy, IsThere;
    forall key: Key | key.0 != nw.iface
      ensures SameEntry(w.kernel.net.addrs, o.world.kernel.net.addrs, key)
    {
      assert SameEntry(w.kernel.net.addrs, r.world.kernel.net.addrs, key);
      assert SameEntry(r.world.kernel.net.addrs, o.world.kernel.net.addrs, key);
    }
  }

  lemma NotReady(w: World, r: Outcome, nw: NetworkConfig)
    requires Readied(w, nw.iface, r) && r.err.Some?
    ensures Handled(w, nw, true, r)
  {
    hide Onward;
  }

  lemma {:induction false} ReadyNetworkHandles(w: World, nw: NetworkConfig, managed: set<string>)
    requires w.Valid()
    ensures Handled(w, nw, nw.iface !in managed, ReadyNetwork(w, nw, managed))
  {
    hide World.Valid, Onward, Handled, Readied, EnsureAddress, ReadyInterface;
    if nw.iface in managed {
      RepairNetworkHandles(w, nw);
    } else {
      ReadyInterfaceReadies(w, nw.iface);
      var r := ReadyInterface(w, nw.iface);
      if r.err.None? {
        ReadiedValid(w, nw.iface, r);
        RepairNetworkHandles(r.world, nw);
        HandledAfterReady(w, r, nw, RepairNetwork(r.world, nw));
      } else {
        NotReady(w, r, nw);
      }
    }
  }

  lemma ReadiedValid(w: World, dev: string, r: Outcome)
    requires Readied(w, dev, r)
    ensures r.world.Valid() && Onward(w, r.world)
  {
  }

  lemma HandledValid(w: World, nw: NetworkConfig, toggled: bool, o: Outcome)
    requires Handled(w, nw, toggled, o)
    ensures o.world.Valid() && Onward(w, o.world)
  {
  }

  // ---------------------------------------------------------------- the loops

  /** Devices of the networks. */
  predicate Uses(ns: seq<NetworkConfig>, dev: string) {
    exists i :: 0 <= i < |ns| && ns[i].iface == dev
  }

  /** What holds whether or not the loop succeeds: only addresses of the networks' devices change,
      and the daemon owns no more than their gateways in addition. */
  ghost predicate LoopFrame(w: World, ns: seq<NetworkConfig>, o: Outcome) {
    && Onward(w, o.world)
    && OnlyAddressing(w.kernel, o.world.kernel)
    && o.world.owned <= w.owned + AllGatewayItems(ns)
    && w.kernel.net.ipv6Off <= o.world.kernel.net.ipv6Off
    && (forall key: Key :: !Uses(ns, key.0) ==> SameEntry(w.kernel.net.addrs, o.world.kernel.net.addrs, key))
    && (forall d :: !Uses(ns, d) ==> (d in o.world.kernel.net.ipv6Off <==> d in w.kernel.net.ipv6Off))
    && (o.err.None? ==> o.world.kernel.net.ipv6Off == w.kernel.net.ipv6Off)
  }

  lemma UsesStep(ns: seq<NetworkConfig>, dev: string)
    requires ns != []
    ensures Uses(ns, dev) <==> ns[0].iface == dev || Uses(ns[1..], dev)
  {
    if Uses(ns, dev) && ns[0].iface != dev {
      var i :| 0 <= i < |ns| && ns[i].iface == dev;
      assert ns[1..][i - 1].iface == dev;
    }
    if Uses(ns[1..], dev) {
      var i :| 0 <= i < |ns[1..]| && ns[1..][i].iface == dev;
      assert ns[i + 1].iface == dev;
    }
  }

  lemma LoopFrameStep(w: World, ns: seq<NetworkConfig>, toggled: bool, a: Outcome, o: Outcome)
    requires ns != [] && Handled(w, ns[0], toggled, a)
    requires if a.err.Some? then o == a else LoopFrame(a.world, ns[1..], o)
    ensures LoopFrame(w, ns, o)
  {
    if a.err.None? {
      OnwardTrans(w, a.world, o.world);
    }
    hide Onward, KeepsHealthy, NetworkHealthy, IsThere, Uses, GatewayItems;
    forall key: Key | !Uses(ns, key.0)
      ensures SameEntry(w.kernel.net.addrs, o.world.kernel.net.addrs, key)
    {
      UsesStep(ns, key.0);
      assert SameEntry(w.kernel.net.addrs, a.world.kernel.net.addrs, key);
      if a.err.None? {
        assert SameEntry(a.world.kernel.net.addrs, o.world.kernel.net.addrs, key);
      }
    }
    forall d | !Uses(ns, d)
      ensures d in o.world.kernel.net.ipv6Off <==> d in w.kernel.net.ipv6Off
    {
      UsesStep(ns, d);
    }
  }

  lemma LoopFrameNothing(w: World)
    requires w.Valid()
    ensures LoopFrame(w, [], Outcome(w, None))
  {
    hide World.Valid, World.Calm;
  }

  lemma {:induction false} ReadyNetworksFrame(w: World, ns: seq<NetworkConfig>, managed: set<string>)
    requires w.Valid()
    ensures LoopFrame(w, ns, ReadyNetworks(w, ns, managed))
    decreases |ns|
  {
    hide World.Valid, LoopFrame, Handled, ReadyNetwork;
    if ns == [] {
      LoopFrameNothing(w);
    } else {
      var a := ReadyNetwork(w, ns[0], managed);
      ReadyNetworkHandles(w, ns[0], managed);
      HandledValid(w, ns[0], ns[0].iface !in managed, a);
      if a.err.None? {
        ReadyNetworksFrame(a.world, ns[1..], managed + {ns[0].iface});
      }
      LoopFrameStep(w, ns, ns[0].iface !in managed, a, ReadyNetworks(w, ns, managed));
    }
  }

  lemma {:induction false} RepairNetworksFrame(w: World, ns: seq<NetworkConfig>)
    requires w.Valid()
    ensures LoopFrame(w, ns, RepairNetworks(w, ns))
    decreases |ns|
  {
    hide World.Valid, LoopFrame, Handled, RepairNetwork;
    if ns == [] {
      LoopFrameNothing(w);
    } else {
      var a := RepairNetwork(w, ns[0]);
      RepairNetworkHandles(w, ns[0]);
      HandledValid(w, ns[0], false, a);
      if a.err.None? {
        RepairNetworksFrame(a.world, ns[1..]);
      }
      LoopFrameStep(w, ns, false, a, RepairNetworks(w, ns));
    }
  }

  /** The `managed` set guards what was built: a device that is protected is reset at most before the
      first network on it. */
  lemma HandledKeeps(w: World, nw: NetworkConfig, toggled: bool, o: Outcome, keep: set<string>)
    requires Handled(w, nw, toggled, o)
    requires nw.iface in keep ==> !toggled
    ensures KeepsHealthy(w.kernel.net, o.world.kernel.net, keep)
  {
    hide Onward, NetworkHealthy, IsThere, OnlyAddressing;
    forall key: Key | key.0 in keep && key in w.kernel.net.addrs && w.kernel.net.addrs[key]
      ensures key in o.world.kernel.net.addrs && o.world.kernel.net.addrs[key]
    {
      if key.0 != nw.iface {
        assert SameEntry(w.kernel.net.addrs, o.world.kernel.net.addrs, key);
      } else {
        assert key.0 in {nw.iface};
      }
    }
  }

  lemma KeepsTrans(a: Network, b: Network, c: Network, keep: set<string>, more: set<string>)
    requires KeepsHealthy(a, b, keep) && KeepsHealthy(b, c, more) && keep <= more
    ensures KeepsHealthy(a, c, keep)
  {
  }

  lemma {:induction false} HealthyKept(n: Network, n': Network, nw: NetworkConfig, keep: set<string>)
    requires NetworkHealthy(n, nw) && KeepsHealthy(n, n', keep) && nw.iface in keep
    ensures NetworkHealthy(n', nw)
  {
    var key := (nw.iface, GatewayForPrefix(nw.prefix).value.Parse().value);
    assert key.0 in keep && key in n.addrs;
  }

  ghost predicate AllNetworksHealthy(n: Network, ns: seq<NetworkConfig>) {
    forall i :: 0 <= i < |ns| ==> NetworkHealthy(n, ns[i])
  }

  lemma AllHealthyStep(n: Network, ns: seq<NetworkConfig>)
    requires ns != []
    ensures AllNetworksHealthy(n, ns) <==> NetworkHealthy(n, ns[0]) && AllNetworksHealthy(n, ns[1..])
  {
    hide NetworkHealthy;
    if NetworkHealthy(n, ns[0]) && AllNetworksHealthy(n, ns[1..]) {
      forall i | 0 <= i < |ns|
        ensures NetworkHealthy(n, ns[i])
      {
        if i > 0 {
          assert ns[1..][i - 1] == ns[i];
        }
      }
    }
  }

  /** If the loop succeeds, every gateway is usable at its end -- for several networks on one device,
      even for duplicates -- and every usable address of a device in `keep` survived. */
  lemma {:induction false} ReadyNetworksEstablish(w: World, ns: seq<NetworkConfig>, managed: set<string>, keep: set<string>)
    requires w.Valid()
    requires managed <= w.kernel.net.dadOff
    requires forall i :: 0 <= i < |ns| && ns[i].iface in keep ==> ns[i].iface in managed
    requires ReadyNetworks(w, ns, managed).err.None?
    ensures var n' := ReadyNetworks(w, ns, managed).world.kernel.net;
            && AllNetworksHealthy(n', ns)
            && KeepsHealthy(w.kernel.net, n', keep)
    decreases |ns|
  {
    hide World.Valid, ReadyNetwork, KeepsHealthy, NetworkHealthy;
    if ns == [] {
      KeepsRefl(w.kernel.net, keep);
    } else {
      var dev := ns[0].iface;
      var a := ReadyNetwork(w, ns[0], managed);
      ReadyNetworkHandles(w, ns[0], managed);
      HandledValid(w, ns[0], dev !in managed, a);
      HandledKeeps(w, ns[0], dev !in managed, a, keep);
      ReadyNetworkHealthy(w, ns[0], managed);
      hide Handled;
      var n' := ReadyNetworks(w, ns, managed).world.kernel.net;
      forall i | 0 <= i < |ns[1..]| && ns[1..][i].iface in keep + {dev}
        ensures ns[1..][i].iface in managed + {dev}
      {
        assert ns[1..][i] == ns[i + 1];
      }
      ReadyNetworksEstablish(a.world, ns[1..], managed + {dev}, keep + {dev});
      KeepsTrans(w.kernel.net, a.world.kernel.net, n', keep, keep + {dev});
      HealthyKept(a.world.kernel.net, n', ns[0], keep + {dev});
      AllHealthyStep(n', ns);
    }
  }

  lemma KeepsRefl(n: Network, keep: set<string>)
    ensures KeepsHealthy(n, n, keep)
  {
  }

  lemma {:induction false} ReadyNetworkHealthy(w: World, nw: NetworkConfig, managed: set<string>)
    requires w.Valid() && managed <= w.kernel.net.dadOff
    requires ReadyNetwork(w, nw, managed).err.None?
    ensures NetworkHealthy(ReadyNetwork(w, nw, managed).world.kernel.net, nw)
    ensures managed + {nw.iface} <= ReadyNetwork(w, nw, managed).world.kernel.net.dadOff
  {
    ReadyNetworkHandles(w, nw, managed);
    hide ReadyNetwork, Onward, KeepsHealthy, NetworkHealthy, IsThere;
  }

  // ---------------------------------------------------------------- when the loops succeed

  /** The network can be served: its gateway exists and its device is there and speaks IPv6. */
  predicate Usable(n: Network, nw: NetworkConfig) {
    && GatewayOf(nw.prefix).Some?
    && GatewayOf(nw.prefix).value.addr.is6
    && n.HasDevice(nw.iface)
    && nw.iface !in n.ipv6Off
  }

  lemma {:induction false} RepairNetworkSucceedsIff(w: World, nw: NetworkConfig)
    requires w.Valid() && w.Calm()
    ensures RepairNetwork(w, nw).err.None? <==> Usable(w.kernel.net, nw)
  {
    GatewayTextParses(nw.prefix);
    if GatewayForPrefix(nw.prefix).Some? {
      EnsureAddressSucceedsIff(w, nw.iface, GatewayForPrefix(nw.prefix).value);
      HealthyMeansOn(w, nw.iface, GatewayForPrefix(nw.prefix).value);
    }
    hide EnsureAddress, World.Valid, World.Calm, GatewayForPrefix, GatewayOf;
  }

  /** A usable address sits on a device that speaks IPv6. */
  lemma HealthyMeansOn(w: World, dev: string, text: PrefixText)
    requires w.Valid()
    ensures IsHealthy(w.kernel.net, dev, text) ==>
            text.Parse().value.addr.is6 && w.kernel.net.HasDevice(dev) && dev !in w.kernel.net.ipv6Off
  {
  }

  lemma {:induction false} ReadyNetworkSucceedsIff(w: World, nw: NetworkConfig, managed: set<string>)
    requires w.Valid() && w.Calm()
    ensures ReadyNetwork(w, nw, managed).err.None? <==> Usable(w.kernel.net, nw)
  {
    hide World.Valid, World.Calm, EnsureAddress, ReadyInterface;
    if nw.iface in managed {
      RepairNetworkSucceedsIff(w, nw);
    } else {
      var r := ReadyInterface(w, nw.iface);
      ReadyInterfaceSucceedsIff(w, nw.iface);
      ReadyInterfaceReadies(w, nw.iface);
      ReadiedValid(w, nw.iface, r);
      if r.err.None? {
        assert r.world.kernel.net.ipv6Off == w.kernel.net.ipv6Off;
        assert r.world.kernel.net.HasDevice(nw.iface) <==> w.kernel.net.HasDevice(nw.iface);
        RepairNetworkSucceedsIff(r.world, nw);
      }
    }
    hide Readied;
  }

  ghost predicate AllUsable(n: Network, ns: seq<NetworkConfig>) {
    forall i :: 0 <= i < |ns| ==> Usable(n, ns[i])
  }

  lemma AllUsableStep(n: Network, ns: seq<NetworkConfig>)
    requires ns != []
    ensures AllUsable(n, ns) <==> Usable(n, ns[0]) && AllUsable(n, ns[1..])
  {
    hide Usable;
    if Usable(n, ns[0]) && AllUsable(n, ns[1..]) {
      forall i | 0 <= i < |ns|
        ensures Usable(n, ns[i])
      {
        if i > 0 {
          assert ns[1..][i - 1] == ns[i];
        }
      }
    }
  }

  lemma AllUsableSame(n: Network, n': Network, ns: seq<NetworkConfig>)
    requires n.tunnel.Some? == n'.tunnel.Some? && n.links == n'.links && n.ipv6Off == n'.ipv6Off
    ensures AllUsable(n, ns) <==> AllUsable(n', ns)
  {
    assert forall nw :: Usable(n, nw) <==> Usable(n', nw);
  }

  /** Without spurious failures the loop succeeds exactly when every network can be served. */
  lemma {:induction false} ReadyNetworksSucceedIff(w: World, ns: seq<NetworkConfig>, managed: set<string>)
    requires w.Valid() && w.Calm()
    ensures ReadyNetworks(w, ns, managed).err.None? <==> AllUsable(w.kernel.net, ns)
    decreases |ns|
  {
    hide World.Valid, World.Calm, ReadyNetwork, Usable;
    if ns != [] {
      var a := ReadyNetwork(w, ns[0], managed);
      ReadyNetworkSucceedsIff(w, ns[0], managed);
      ReadyNetworkHandles(w, ns[0], managed);
      HandledValid(w, ns[0], ns[0].iface !in managed, a);
      AllUsableStep(w.kernel.net, ns);
      if a.err.None? {
        AllUsableSame(w.kernel.net, a.world.kernel.net, ns[1..]);
        ReadyNetworksSucceedIff(a.world, ns[1..], managed + {ns[0].iface});
      }
      hide Handled, AllUsable;
    }
  }

  lemma {:induction false} RepairNetworksSucceedIff(w: World, ns: seq<NetworkConfig>)
    requires w.Valid() && w.Calm()
    ensures RepairNetworks(w, ns).err.None? <==> AllUsable(w.kernel.net, ns)
    decreases |ns|
  {
    hide World.Valid, World.Calm, RepairNetwork, Usable;
    if ns != [] {
      var a := RepairNetwork(w, ns[0]);
      RepairNetworkSucceedsIff(w, ns[0]);
      RepairNetworkHandles(w, ns[0]);
      HandledValid(w, ns[0], false, a);
      AllUsableStep(w.kernel.net, ns);
      if a.err.None? {
        AllUsableSame(w.kernel.net, a.world.kernel.net, ns[1..]);
        RepairNetworksSucceedIff(a.world, ns[1..]);
      }
      hide Handled, AllUsable;
    }
  }
}
