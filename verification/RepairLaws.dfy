/** The lightweight repair: what it establishes and what it never touches. */
module RepairLaws {
  import opened Options
  import opened Addresses
  import opened Kernel
  import opened Config
  import opened Backend
  import opened AddressLaws
  import opened LanLaws
  import opened LinkLaws
  import opened ReconcileLaws
  import opened Convergence

  /** The address is the gateway of one of the networks. */
  ghost predicate IsGatewayKey(ns: seq<NetworkConfig>, key: Key) {
    exists i :: 0 <= i < |ns| && ns[i].iface == key.0 && GatewayOf(ns[i].prefix) == Some(key.1)
  }

  /** The address is one the config manages. */
  ghost predicate IsManagedKey(c: Config, key: Key) {
    || (key.0 == TUNNEL && c.tunnel.localIPv6.Parse() == Some(key.1))
    || (c.lan.enabled && IsGatewayKey(c.lan.networks, key))
  }

  /** Usable addresses stay usable, whatever device they are on. */
  ghost predicate KeepsAllHealthy(n: Network, n': Network) {
    forall key: Key :: key in n.addrs && n.addrs[key] ==> key in n'.addrs && n'.addrs[key]
  }

  /** Only addresses of keys in `touched` may change, and none that was usable. */
  ghost predicate AddressesOnly(w: World, w': World, touched: iset<Key>) {
    && Onward(w, w')
    && w'.kernel.fw == w.kernel.fw
    && w'.kernel.net == w.kernel.net.(addrs := w'.kernel.net.addrs)
    && (forall key: Key :: key !in touched ==> SameEntry(w.kernel.net.addrs, w'.kernel.net.addrs, key))
    && KeepsAllHealthy(w.kernel.net, w'.kernel.net)
  }

  lemma AddressesOnlyTrans(a: World, b: World, c: World, s: iset<Key>, t: iset<Key>)
    requires AddressesOnly(a, b, s) && AddressesOnly(b, c, t)
    ensures AddressesOnly(a, c, s + t)
  {
    OnwardTrans(a, b, c);
    hide Onward;
    forall key: Key | key !in s + t
      ensures SameEntry(a.kernel.net.addrs, c.kernel.net.addrs, key)
    {
      assert SameEntry(a.kernel.net.addrs, b.kernel.net.addrs, key);
      assert SameEntry(b.kernel.net.addrs, c.kernel.net.addrs, key);
    }
  }

  lemma AddressesOnlyMore(a: World, b: World, s: iset<Key>, t: iset<Key>)
    requires AddressesOnly(a, b, s) && s <= t
    ensures AddressesOnly(a, b, t)
  {
    hide Onward, SameEntry;
  }

  lemma AddressesOnlyRefl(w: World, s: iset<Key>)
    requires w.Valid()
    ensures AddressesOnly(w, w, s)
  {
    hide World.Valid, World.Calm;
  }

  lemma AddressesOnlyValid(w: World, w': World, s: iset<Key>)
    requires AddressesOnly(w, w', s)
    ensures w'.Valid() && Onward(w, w') && w'.kernel.net.dadOff == w.kernel.net.dadOff
  {
  }

  /** The key an address text stands for on a device. */
  ghost function KeyOf(dev: string, text: PrefixText): iset<Key> {
    if text.Parse().Some? then iset{(dev, text.Parse().value)} else iset{}
  }

  ghost function GatewayKeyOf(nw: NetworkConfig): iset<Key> {
    if GatewayOf(nw.prefix).Some? then iset{(nw.iface, GatewayOf(nw.prefix).value)} else iset{}
  }

  ghost function GatewayKeys(ns: seq<NetworkConfig>): iset<Key> {
    iset key: Key | IsGatewayKey(ns, key)
  }

  ghost function ManagedKeys(c: Config): iset<Key> {
    iset key: Key | IsManagedKey(c, key)
  }

  lemma EnsuredAddressesOnly(w: World, dev: string, text: PrefixText, o: Outcome)
    requires Ensured(w, dev, text, o)
    ensures AddressesOnly(w, o.world, KeyOf(dev, text))
  {
    EnsuredFrame(w, dev, text, o);
    hide Onward;
    forall key: Key
      ensures key !in KeyOf(dev, text) ==> SameEntry(w.kernel.net.addrs, o.world.kernel.net.addrs, key)
      ensures key in w.kernel.net.addrs && w.kernel.net.addrs[key] ==>
              key in o.world.kernel.net.addrs && o.world.kernel.net.addrs[key]
    {
      if text.Parse().Some? {
        if key != (dev, text.Parse().value) {
          assert SameEntry(w.kernel.net.addrs, o.world.kernel.net.addrs, key);
        } else if key in w.kernel.net.addrs && w.kernel.net.addrs[key] {
          assert IsHealthy(w.kernel.net, dev, text);
        }
      }
    }
  }

  lemma {:induction false} RepairNetworkAddressesOnly(w: World, nw: NetworkConfig)
    requires w.Valid()
    ensures AddressesOnly(w, RepairNetwork(w, nw).world, GatewayKeyOf(nw))
  {
    GatewayTextParses(nw.prefix);
    match GatewayForPrefix(nw.prefix) {
      case None =>
        hide AddressesOnly;
        AddressesOnlyRefl(w, GatewayKeyOf(nw));
      case Some(text) =>
        EnsureAddressEnsures(w, nw.iface, text);
        hide EnsureAddress, Ensured, AddressesOnly;
        EnsuredAddressesOnly(w, nw.iface, text, EnsureAddress(w, nw.iface, text));
    }
  }

  lemma GatewayKeysStep(ns: seq<NetworkConfig>)
    requires ns != []
    ensures GatewayKeyOf(ns[0]) + GatewayKeys(ns[1..]) == GatewayKeys(ns)
  {
    hide GatewayOf;
    forall key: Key
      ensures key in GatewayKeyOf(ns[0]) + GatewayKeys(ns[1..]) <==> key in GatewayKeys(ns)
    {
      if IsGatewayKey(ns[1..], key) {
        var i :| 0 <= i < |ns[1..]| && ns[1..][i].iface == key.0 && GatewayOf(ns[1..][i].prefix) == Some(key.1);
        assert ns[1..][i] == ns[i + 1];
      }
      if IsGatewayKey(ns, key) {
        var i :| 0 <= i < |ns| && ns[i].iface == key.0 && GatewayOf(ns[i].prefix) == Some(key.1);
        assert i > 0 ==> ns[1..][i - 1] == ns[i];
      }
    }
  }

  lemma {:induction false} RepairNetworksAddressesOnly(w: World, ns: seq<NetworkConfig>)
    requires w.Valid()
    ensures AddressesOnly(w, RepairNetworks(w, ns).world, GatewayKeys(ns))
    decreases |ns|
  {
    hide World.Valid, AddressesOnly, RepairNetwork, GatewayKeys, GatewayKeyOf;
    if ns == [] {
      AddressesOnlyRefl(w, GatewayKeys(ns));
    } else {
      var a := RepairNetwork(w, ns[0]);
      RepairNetworkAddressesOnly(w, ns[0]);
      AddressesOnlyValid(w, a.world, GatewayKeyOf(ns[0]));
      GatewayKeysStep(ns);
      if a.err.None? {
        RepairNetworksAddressesOnly(a.world, ns[1..]);
        AddressesOnlyTrans(w, a.world, RepairNetworks(w, ns).world, GatewayKeyOf(ns[0]), GatewayKeys(ns[1..]));
      } else {
        AddressesOnlyMore(w, a.world, GatewayKeyOf(ns[0]), GatewayKeys(ns));
      }
    }
  }

  /** Framing. Whether it succeeds or fails, a repair leaves the tunnel device, all routes, switches
      and the firewall alone, changes no address but the managed ones, and none that was usable. */
  lemma RepairFrames(w: World, c: Config)
    requires w.Valid()
    ensures AddressesOnly(w, RepairAddresses(w, c).world, ManagedKeys(c))
  {
    hide World.Valid, AddressesOnly, EnsureAddress, RepairNetworks, IsGatewayKey;
    if !c.tunnel.enabled {
      AddressesOnlyRefl(w, ManagedKeys(c));
    } else {
      var o := EnsureAddress(w, TUNNEL, c.tunnel.localIPv6);
      EnsureAddressEnsures(w, TUNNEL, c.tunnel.localIPv6);
      hide Ensured;
      var t := KeyOf(TUNNEL, c.tunnel.localIPv6);
      EnsuredAddressesOnly(w, TUNNEL, c.tunnel.localIPv6, o);
      AddressesOnlyValid(w, o.world, t);
      if o.err.Some? || !c.lan.enabled {
        AddressesOnlyMore(w, o.world, t, ManagedKeys(c));
      } else {
        var r := RepairNetworks(o.world, c.lan.networks).world;
        RepairNetworksAddressesOnly(o.world, c.lan.networks);
        AddressesOnlyTrans(w, o.world, r, t, GatewayKeys(c.lan.networks));
        AddressesOnlyMore(w, r, t + GatewayKeys(c.lan.networks), ManagedKeys(c));
      }
    }
  }

  // ---------------------------------------------------------------- what success means

  /** Present; usable unless duplicate detection was left on for it. */
  predicate Restored(n: Network, nw: NetworkConfig) {
    && GatewayForPrefix(nw.prefix).Some?
    && IsThere(n, nw.iface, GatewayForPrefix(nw.prefix).value)
    && (NoDad(n, nw.iface) ==> NetworkHealthy(n, nw))
  }

  lemma {:induction false} RestoredStays(w: World, w': World, nw: NetworkConfig, nw': NetworkConfig)
    requires Restored(w.kernel.net, nw)
    requires AddressesOnly(w, w', GatewayKeyOf(nw'))
    requires Restored(w'.kernel.net, nw')
    ensures Restored(w'.kernel.net, nw)
  {
    hide Onward;
    GatewayTextParses(nw.prefix);
    GatewayTextParses(nw'.prefix);
    var key := (nw.iface, GatewayOf(nw.prefix).value);
    if key !in GatewayKeyOf(nw') {
      assert SameEntry(w.kernel.net.addrs, w'.kernel.net.addrs, key);
    }
    hide GatewayForPrefix, GatewayOf;
  }

  ghost predicate AllRestored(n: Network, ns: seq<NetworkConfig>) {
    forall i :: 0 <= i < |ns| ==> Restored(n, ns[i])
  }

  lemma {:induction false} RestoredThroughout(w: World, ns: seq<NetworkConfig>, nw: NetworkConfig)
    requires w.Valid() && Restored(w.kernel.net, nw)
    requires RepairNetworks(w, ns).err.None?
    ensures Restored(RepairNetworks(w, ns).world.kernel.net, nw)
    decreases |ns|
  {
    hide World.Valid, AddressesOnly, RepairNetwork, Restored;
    if ns != [] {
      var a := RepairNetwork(w, ns[0]);
      RepairNetworkAddressesOnly(w, ns[0]);
      AddressesOnlyValid(w, a.world, GatewayKeyOf(ns[0]));
      RepairNetworkRestores(w, ns[0]);
      RestoredStays(w, a.world, nw, ns[0]);
      RestoredThroughout(a.world, ns[1..], nw);
    }
  }

  lemma {:induction false} RepairNetworkRestores(w: World, nw: NetworkConfig)
    requires w.Valid() && RepairNetwork(w, nw).err.None?
    ensures Restored(RepairNetwork(w, nw).world.kernel.net, nw)
  {
    RepairNetworkHandles(w, nw);
    hide RepairNetwork, Onward, KeepsHealthy, World.Valid;
  }

  lemma {:induction false} RepairNetworksRestore(w: World, ns: seq<NetworkConfig>)
    requires w.Valid() && RepairNetworks(w, ns).err.None?
    ensures AllRestored(RepairNetworks(w, ns).world.kernel.net, ns)
    decreases |ns|
  {
    hide World.Valid, AddressesOnly, RepairNetwork, Restored;
    if ns != [] {
      var a := RepairNetwork(w, ns[0]);
      RepairNetworkAddressesOnly(w, ns[0]);
      AddressesOnlyValid(w, a.world, GatewayKeyOf(ns[0]));
      RepairNetworkRestores(w, ns[0]);
      RestoredThroughout(a.world, ns[1..], ns[0]);
      RepairNetworksRestore(a.world, ns[1..]);
      var n := RepairNetworks(w, ns).world.kernel.net;
      forall i | 0 <= i < |ns|
        ensures Restored(n, ns[i])
      {
        assert i > 0 ==> ns[1..][i - 1] == ns[i];
      }
    }
  }

  /** A repair that succeeds leaves every managed address in place: the tunnel's usable, a gateway
      usable unless its device still does duplicate detection. */
  lemma {:induction false} RepairRestores(w: World, c: Config)
    requires w.Valid() && c.tunnel.enabled
    requires RepairAddresses(w, c).err.None?
    ensures var n := RepairAddresses(w, c).world.kernel.net;
            && IsHealthy(n, TUNNEL, c.tunnel.localIPv6)
            && (c.lan.enabled ==> AllRestored(n, c.lan.networks))
  {
    hide World.Valid, EnsureAddress, RepairNetworks, AllRestored, AddressesOnly;
    var o := EnsureAddress(w, TUNNEL, c.tunnel.localIPv6);
    EnsureAddressEnsures(w, TUNNEL, c.tunnel.localIPv6);
    OnwardValid(w, o.world);
    assert IsHealthy(o.world.kernel.net, TUNNEL, c.tunnel.localIPv6);
    hide Ensured;
    if c.lan.enabled {
      RepairNetworksAddressesOnly(o.world, c.lan.networks);
      RepairNetworksRestore(o.world, c.lan.networks);
      StaysHealthy(o.world, RepairNetworks(o.world, c.lan.networks).world, GatewayKeys(c.lan.networks), TUNNEL, c.tunnel.localIPv6);
    }
  }

  lemma StaysHealthy(w: World, w': World, s: iset<Key>, dev: string, text: PrefixText)
    requires AddressesOnly(w, w', s) && IsHealthy(w.kernel.net, dev, text)
    ensures IsHealthy(w'.kernel.net, dev, text)
  {
    assert (dev, text.Parse().value) in w.kernel.net.addrs;
    hide Onward;
  }

  /** Every network's gateway is usable already, or its device does no duplicate detection. */
  predicate Mendable(n: Network, ns: seq<NetworkConfig>) {
    forall i :: 0 <= i < |ns| ==> NetworkHealthy(n, ns[i]) || NoDad(n, ns[i].iface)
  }

  /** A successful repair makes every managed address usable, if with LAN enabled each gateway is usable
      already or its device does no duplicate detection. */
  lemma {:induction false} RepairHeals(w: World, c: Config)
    requires w.Valid() && c.tunnel.enabled && (c.lan.enabled ==> Mendable(w.kernel.net, c.lan.networks))
    requires RepairAddresses(w, c).err.None?
    ensures AllHealthy(RepairAddresses(w, c).world.kernel.net, c)
  {
    RepairRestores(w, c);
    RepairFrames(w, c);
    hide RepairAddresses, World.Valid, Onward, NetworkHealthy, IsHealthy, IsThere, KeepsAllHealthy;
    var n := RepairAddresses(w, c).world.kernel.net;
    if c.lan.enabled {
      forall i | 0 <= i < |c.lan.networks|
        ensures NetworkHealthy(n, c.lan.networks[i])
      {
        assert Restored(n, c.lan.networks[i]);
        if NetworkHealthy(w.kernel.net, c.lan.networks[i]) {
          NetworkStaysHealthy(w.kernel.net, n, c.lan.networks[i]);
        }
      }
    }
  }

  lemma NetworkStaysHealthy(n: Network, n': Network, nw: NetworkConfig)
    requires KeepsAllHealthy(n, n') && NetworkHealthy(n, nw)
    ensures NetworkHealthy(n', nw)
  {
    hide GatewayForPrefix;
    var key := (nw.iface, GatewayForPrefix(nw.prefix).value.Parse().value);
    assert key in n.addrs && n.addrs[key];
  }

  // ---------------------------------------------------------------- where detection does its work

  /** From now on duplicate detection, where it is active, leaves an address unusable. */
  ghost predicate AllTentative(w: World) {
    forall t: nat {:trigger w.fate(t)} :: t >= w.now ==> w.fate(t).tentative
  }

  /** The address is not usable, and its device does duplicate detection. */
  predicate Detected(n: Network, key: Key) {
    !NoDad(n, key.0) && !(key in n.addrs && n.addrs[key])
  }

  ghost predicate StillDetected(w: World, key: Key) {
    AllTentative(w) && Detected(w.kernel.net, key)
  }

  lemma AddDetected(w: World, dev: string, text: PrefixText, key: Key)
    requires StillDetected(w, key)
    ensures StillDetected(Run(w, Addr(AddrAdd(dev, text))).world, key)
    ensures StillDetected(Run(w, Addr(AddrDel(dev, text))).world, key)
    ensures StillDetected(Exec(w, Read(ShowAddr6(dev))).world, key)
  {
    hide Present, Creates;
  }

  lemma {:induction false} EnsureDetected(w: World, dev: string, text: PrefixText, key: Key)
    requires StillDetected(w, key)
    ensures StillDetected(EnsureAddress(w, dev, text).world, key)
  {
    hide Exec, Run, RunAll, StillDetected;
    if text.Parse().Some? {
      var q := Exec(w, Read(ShowAddr6(dev))).world;
      var del, add := Addr(AddrDel(dev, text)), Addr(AddrAdd(dev, text));
      AddDetected(w, dev, text, key);
      AddDetected(q, dev, text, key);
      AddDetected(Run(q, del).world, dev, text, key);
      RunTwo(q, del, add);
      RunOne(q, add);
      RunOne(Run(q, del).world, add);
    }
  }

  lemma {:induction false} NetworksDetected(w: World, ns: seq<NetworkConfig>, key: Key)
    requires StillDetected(w, key)
    ensures StillDetected(RepairNetworks(w, ns).world, key)
    decreases |ns|
  {
    hide EnsureAddress, GatewayForPrefix, StillDetected;
    if ns != [] {
      if GatewayForPrefix(ns[0].prefix).Some? {
        EnsureDetected(w, ns[0].iface, GatewayForPrefix(ns[0].prefix).value, key);
      }
      NetworksDetected(RepairNetwork(w, ns[0]).world, ns[1..], key);
    }
  }

  lemma {:induction false} RepairDetected(w: World, c: Config, key: Key)
    requires StillDetected(w, key)
    ensures StillDetected(RepairAddresses(w, c).world, key)
  {
    hide EnsureAddress, RepairNetworks, StillDetected;
    if c.tunnel.enabled {
      EnsureDetected(w, TUNNEL, c.tunnel.localIPv6, key);
      NetworksDetected(EnsureAddress(w, TUNNEL, c.tunnel.localIPv6).world, c.lan.networks, key);
    }
  }

  /** Where duplicate detection does its work the condition is exact: a successful repair makes every managed
      address usable if and only if, with LAN enabled, each gateway was usable already or its device does
      no duplicate detection. */
  lemma {:induction false} RepairHealsIff(w: World, c: Config)
    requires w.Valid() && c.tunnel.enabled && AllTentative(w)
    requires RepairAddresses(w, c).err.None?
    ensures AllHealthy(RepairAddresses(w, c).world.kernel.net, c) <==>
            (c.lan.enabled ==> Mendable(w.kernel.net, c.lan.networks))
  {
    hide World.Valid, RepairAddresses, AllTentative, NetworkHealthy, IsHealthy, NoDad;
    var n := RepairAddresses(w, c).world.kernel.net;
    if !c.lan.enabled || Mendable(w.kernel.net, c.lan.networks) {
      RepairHeals(w, c);
    } else {
      var i :| 0 <= i < |c.lan.networks| && !NetworkHealthy(w.kernel.net, c.lan.networks[i]) && !NoDad(w.kernel.net, c.lan.networks[i].iface);
      if NetworkHealthy(n, c.lan.networks[i]) {
        StaysUnusable(w, c, c.lan.networks[i]);
      }
    }
  }

  lemma StaysUnusable(w: World, c: Config, nw: NetworkConfig)
    requires AllTentative(w) && !NetworkHealthy(w.kernel.net, nw) && !NoDad(w.kernel.net, nw.iface)
    ensures !NetworkHealthy(RepairAddresses(w, c).world.kernel.net, nw)
  {
    hide RepairAddresses, GatewayForPrefix;
    var g := GatewayForPrefix(nw.prefix);
    if g.Some? && g.value.Parse().Some? {
      RepairDetected(w, c, (nw.iface, g.value.Parse().value));
    }
  }

  /** Without spurious failures a repair succeeds exactly when the tunnel device is there and every
      managed address can be put in place. */
  lemma RepairSucceedsIff(w: World, c: Config)
    requires w.Valid() && w.Calm() && c.tunnel.enabled
    ensures RepairAddresses(w, c).err.None? <==>
            (&& c.tunnel.localIPv6.Parse().Some? && c.tunnel.localIPv6.Parse().value.addr.is6
             && w.kernel.net.HasDevice(TUNNEL) && TUNNEL !in w.kernel.net.ipv6Off
             && (c.lan.enabled ==> AllUsable(w.kernel.net, c.lan.networks)))
  {
    hide World.Valid, EnsureAddress, RepairNetworks, World.Calm, AllUsable, AddressesOnly;
    var o := EnsureAddress(w, TUNNEL, c.tunnel.localIPv6);
    EnsureAddressEnsures(w, TUNNEL, c.tunnel.localIPv6);
    EnsureAddressSucceedsIff(w, TUNNEL, c.tunnel.localIPv6);
    HealthyMeansOn(w, TUNNEL, c.tunnel.localIPv6);
    OnwardValid(w, o.world);
    if o.err.None? && c.lan.enabled {
      EnsuredFrame(w, TUNNEL, c.tunnel.localIPv6, o);
      AllUsableSame(w.kernel.net, o.world.kernel.net, c.lan.networks);
      RepairNetworksSucceedIff(o.world, c.lan.networks);
    }
    hide Ensured, Onward, IsHealthy;
  }

  lemma RepairOwns(w: World, c: Config)
    requires w.Valid()
    ensures Owns(w, c, RepairAddresses(w, c).world)
  {
    hide World.Valid, EnsureAddress, RepairNetworks, AllGatewayItems, World.Calm;
    if c.tunnel.enabled {
      var o := EnsureAddress(w, TUNNEL, c.tunnel.localIPv6);
      TunnelAddressFrame(w, c);
      AddressesFrameValid(w, c, o.world);
      if o.err.None? && c.lan.enabled {
        RepairNetworksFrame(o.world, c.lan.networks);
        OnwardTrans(w, o.world, RepairNetworks(o.world, c.lan.networks).world);
      }
    } else {
      LoopFrameNothing(w);
    }
    hide Onward;
  }
}
