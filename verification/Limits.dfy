/** Where the daemon's promises end: inputs on which they fail, and what exactly happens there. */
module Limits {
  import opened Text
  import opened Addresses
  import opened Kernel
  import opened Config
  import opened ConfigLaws
  import opened Backend
  import opened AddressLaws
  import opened LanLaws
  import opened TeardownLaws
  import opened FirewallLaws
  import opened LinkLaws
  import opened ReconcileLaws
  import opened Convergence
  import opened Feasibility

  // ---------------------------------------------------------------- a device left without IPv6

  /** The reset of a device is not atomic: if its second half fails, IPv6 stays off. */
  lemma ResetMayStopHalfway(w: World, dev: string)
    requires w.Valid() && w.kernel.net.HasDevice(dev)
    requires !w.fate(w.now).fails && w.fate(w.now + 1).fails
    ensures var o := RunAll(w, [Addr(DisableIPv6(dev)), Addr(EnableIPv6(dev))]);
            o.err.Some? && dev in o.world.kernel.net.ipv6Off
  {
    var off, on := Addr(DisableIPv6(dev)), Addr(EnableIPv6(dev));
    RunTwo(w, off, on);
    RunOne(Run(w, off).world, on);
    hide World.Valid, RunAll;
  }

  lemma AddressesKeepOff(w: World, c: Config, dev: string)
    requires w.Valid() && dev in w.kernel.net.ipv6Off
    ensures dev in BringUpAddresses(w, c).world.kernel.net.ipv6Off
  {
    hide World.Valid, EnsureAddress, Run, ReadyNetworks, Onward, AllGatewayItems;
    var a := EnsureAddress(w, TUNNEL, c.tunnel.localIPv6);
    EnsureAddressEnsures(w, TUNNEL, c.tunnel.localIPv6);
    EnsuredFrame(w, TUNNEL, c.tunnel.localIPv6, a);
    TunnelAddressFrame(w, c);
    AddressesFrameValid(w, c, a.world);
    if a.err.None? {
      var f := Run(a.world, Routing(ForwardingOn));
      ForwardingFrame(a.world, c);
      AddressesFrameValid(a.world, c, f.world);
      ForwardingKeepsOff(a.world);
      ReadyNetworksFrame(f.world, c.lan.networks, {});
    }
    hide Ensured;
  }

  lemma ForwardingKeepsOff(w: World)
    ensures Run(w, Routing(ForwardingOn)).world.kernel.net.ipv6Off == w.kernel.net.ipv6Off
  {
  }

  lemma BringUpKeepsOff(w: World, c: Config, wan4: string, dev: string)
    requires w.Valid() && dev in w.kernel.net.ipv6Off && dev != TUNNEL
    ensures dev in BringUp(w, c, wan4).world.kernel.net.ipv6Off
  {
    hide World.Valid, BringUpLink, BringUpAddresses, BringUpRoute, FirewallUp, AllGatewayItems, World.Calm,
         SameSurroundings;
    var l := BringUpLink(w, c, wan4);
    BringUpLinkFrame(w, c, wan4);
    LinkFrameValid(w, c, l.world);
    if l.err.None? {
      var a := BringUpAddresses(l.world, c);
      BringUpAddressesFrame(l.world, c);
      AddressesFrameValid(l.world, c, a.world);
      AddressesKeepOff(l.world, c, dev);
      if a.err.None? {
        var r := BringUpRoute(a.world, c);
        BringUpRouteFrame(a.world, c);
        if r.err.None? {
          OnwardValid(a.world, r.world);
          FirewallUpOnlyFirewall(r.world, c.server.wanInterface);
        }
      }
    }
    hide Onward;
  }

  lemma EstablishKeepsOff(w: World, c: Config, dev: string)
    requires w.Valid() && dev in w.kernel.net.ipv6Off && dev != TUNNEL
    ensures dev in Establish(w, c).world.kernel.net.ipv6Off
  {
    hide World.Valid, ReadWAN4, ResolveMTU, World.Calm, BringUp;
    var wan := c.server.wanInterface;
    var ip := ReadWAN4(w, wan);
    ReadWAN4Reads(w, wan);
    OnwardValid(w, ip.world);
    if ip.value.Some? {
      var mtu := ResolveMTU(ip.world, c.tunnel.mtu, wan);
      ResolveMTUReads(ip.world, c.tunnel.mtu, wan);
      OnwardValid(ip.world, mtu.world);
      if mtu.value.Some? {
        BringUpKeepsOff(mtu.world, WithMTU(c, mtu.value.value), ip.value.value, dev);
      }
    }
  }

  /** A reconcile never turns IPv6 back on where it found it off, whatever else happens. */
  lemma OffStaysOff(w: World, c: Config, valid: bool, applied: AppliedState, dev: string)
    requires w.Valid() && dev in w.kernel.net.ipv6Off && dev != TUNNEL
    ensures dev in Reconcile(w, c, valid, applied).world.kernel.net.ipv6Off
  {
    hide World.Valid, Establish, Teardown;
    var down := Teardown(w, applied);
    TeardownReduces(w, applied);
    ReducedValid(w, down);
    if valid && c.tunnel.enabled {
      EstablishKeepsOff(down, c, dev);
    }
    hide Onward;
  }

  function ReconcileAgain(w: World, c: Config, applied: AppliedState, count: nat): World
    decreases count
  {
    if count == 0 then w else ReconcileAgain(Reconcile(w, c, true, applied).world, c, applied, count - 1)
  }

  /** A LAN device on which IPv6 was left off never heals: from then on every reconcile fails, however
      often it is tried and even if no command ever fails again without reason. */
  lemma {:induction false} NeverHeals(w: World, c: Config, applied: AppliedState, i: nat, count: nat)
    requires w.Valid() && w.Calm() && LANOffTunnel(c) && c.tunnel.enabled && c.lan.enabled
    requires i < |c.lan.networks| && c.lan.networks[i].iface in w.kernel.net.ipv6Off
    ensures Reconcile(ReconcileAgain(w, c, applied, count), c, true, applied).err.Some?
    decreases count
  {
    hide World.Valid, World.Calm, Reconcile, GatewayOf;
    var dev := c.lan.networks[i].iface;
    if count == 0 {
      LanReconcileSucceedsIff(w, c, applied);
      assert !Usable(w.kernel.net, c.lan.networks[i]);
    } else {
      var w1 := Reconcile(w, c, true, applied).world;
      ReconcileOnward(w, c, true, applied);
      OnwardValid(w, w1);
      OffStaysOff(w, c, true, applied, dev);
      hide Onward, LANOffTunnel;
      NeverHeals(w1, c, applied, i, count - 1);
    }
  }

  // ---------------------------------------------------------------- a LAN network on the tunnel device

  predicate HasNone(addrs: AddressTable, dev: string) {
    forall key <- addrs.Keys :: key.0 != dev
  }

  lemma DisabledHasNone(w: World, dev: string)
    requires Run(w, Addr(DisableIPv6(dev))).err.None?
    ensures HasNone(Run(w, Addr(DisableIPv6(dev))).world.kernel.net.addrs, dev)
  {
  }

  lemma {:induction false} EnabledHasLinkLocals(w: World, dev: string)
    requires HasNone(w.kernel.net.addrs, dev)
    requires Run(w, Addr(EnableIPv6(dev))).err.None?
    ensures OnlyLinkLocals(Run(w, Addr(EnableIPv6(dev))).world.kernel.net.addrs, dev)
  {
    hide IsLinkLocal;
  }

  lemma ToggledHasLinkLocals(w: World, dev: string)
    requires RunAll(w, [Addr(DisableIPv6(dev)), Addr(EnableIPv6(dev))]).err.None?
    ensures OnlyLinkLocals(RunAll(w, [Addr(DisableIPv6(dev)), Addr(EnableIPv6(dev))]).world.kernel.net.addrs, dev)
  {
    hide RunAll, Run, HasNone, OnlyLinkLocals;
    var off, on := Addr(DisableIPv6(dev)), Addr(EnableIPv6(dev));
    RunTwo(w, off, on);
    RunOne(Run(w, off).world, on);
    DisabledHasNone(w, dev);
    EnabledHasLinkLocals(Run(w, off).world, dev);
  }

  /** Why no LAN network may be put on the tunnel device: making a device with a broken link-local address
      ready wipes every other address it has, so the tunnel would lose the one just given to it. */
  lemma ReadyingWipes(w: World, dev: string, p: Prefix)
    requires w.Valid() && w.kernel.net.BrokenLinkLocal(dev) && !IsLinkLocal(p.addr)
    requires ReadyInterface(w, dev).err.None?
    ensures (dev, p) !in ReadyInterface(w, dev).world.kernel.net.addrs
  {
    hide World.Valid, RunAll, IsLinkLocal, Exec, Onward, Run;
    var a := Run(w, Addr(AcceptDadOff(dev)));
    DadOff(w, dev);
    var d := Exec(a.world, Read(ShowAddr6(dev)));
    ReadLeavesKernel(a.world, ShowAddr6(dev));
    BrokenSame(w.kernel.net, d.world.kernel.net, dev);
    hide Network.BrokenLinkLocal;
    ToggledHasLinkLocals(d.world, dev);
    var n := ReadyInterface(w, dev).world.kernel.net;
    assert OnlyLinkLocals(n.addrs, dev);
    if (dev, p) in n.addrs {
      assert (dev, p) in n.addrs.Keys;
    }
  }

  // ---------------------------------------------------------------- LAN disabled

  /** With LAN disabled the first network still supplies the route source, which nobody assigns: unless
      somebody else did, the config cannot work. */
  lemma {:induction false} DisabledLANSuppliesSource(n: Network, c: Config)
    requires !c.lan.enabled && c.lan.networks != []
    requires c.tunnel.localIPv6.Parse().Some? && !IsPreferredSource(c.tunnel.localIPv6.Parse().value.addr)
    requires GatewayOf(c.lan.networks[0].prefix).Some? && IsPreferredSource(GatewayOf(c.lan.networks[0].prefix).value.addr)
    ensures Workable(n, c) ==> n.Assigned(GatewayOf(c.lan.networks[0].prefix).value.addr)
  {
    GatewayTextParses(c.lan.networks[0].prefix);
    hide IsPreferredSource, Network.Assigned, GatewayOf;
  }

  // ---------------------------------------------------------------- padded text

  const PADDED: Config :=
    BLANK_CONFIG.(
      tunnel := TunnelConfig(true, BROKER_CUSTOM, "1.2.3.4", PaddedPrefix(Prefix.Prefix(Address(true, 0), 64)), "", DEFAULT_TTL, DEFAULT_MTU))

  lemma PaddedEndpoint()
    ensures IsIPv4("1.2.3.4")
  {
    SplitJoin(["1", "2", "3", "4"], '.');
    var parts := ["1", "2", "3", "4"];
    assert parts[1..] == ["2", "3", "4"];
    assert parts[1..][1..] == ["3", "4"];
    assert parts[1..][1..][1..] == ["4"];
    assert Join(["3", "4"], '.') == "3.4";
    assert Join(["2", "3", "4"], '.') == "2" + ['.'] + "3.4";
    assert Join(parts, '.') == "1" + ['.'] + ("2" + ['.'] + "3.4");
    assert "1.2.3.4" == Join(parts, '.');
  }

  lemma PaddedHasDefaults()
    ensures ProfileDefaults(ProfilePart(PADDED)) == ProfilePart(PADDED) && GoodServer(PADDED.server)
  {
    assert !IsSpace(BROKER_CUSTOM[0]) && !IsSpace(DEFAULT_LAN_MODE[0]) && !IsSpace(DEFAULT_WAN_INTERFACE[0]);
    hide IsSpace;
  }

  lemma DefaultTargetIsIPv6()
    ensures IsIPv6Address(DEFAULT_HEALTH_TARGET)
  {
  }

  /** Validation trims the tunnel's address, the consumers do not: this config is valid... */
  lemma PaddedIsValid()
    ensures ValidConfig(PADDED)
  {
    hide ValidConfig, IsIPv4, IsSpace, IsBlank, ProfileDefaults, IsIPv6Address, GoodServer;
    PaddedEndpoint();
    PaddedHasDefaults();
    DefaultTargetIsIPv6();
    ValidConfigIff(PADDED);
  }

  /** ...and like every config whose address is padded it can never work. A valid, wanted config works only
      if its address is written without padding. */
  lemma {:induction false} PaddedNeverWorks(n: Network, c: Config)
    requires ValidConfig(c) && c.tunnel.enabled && Workable(n, c)
    ensures c.tunnel.localIPv6.PrefixText?
  {
    hide ValidConfig, AllUsable, SourceReady;
  }

  // ---------------------------------------------------------------- lost deletions

  lemma {:induction false} AllFail(fate: nat -> Fate, now: nat, cs: seq<Command>, item: Item)
    requires forall t: nat {:trigger fate(t)} :: fate(t).fails
    ensures AllDeletionsFail(fate, now, cs, item)
    decreases |cs|
  {
    hide Deletes;
    if cs != [] {
      AllFail(fate, now + 1, cs[1..], item);
    }
  }

  /** Deletions are best-effort: when they fail, switching off reports no error and leaves behind
      everything the daemon installed. */
  lemma SwitchingOffMayLeak(w: World, c: Config, applied: AppliedState, item: Item)
    requires w.Valid() && !c.tunnel.enabled && item in w.owned
    requires forall t: nat {:trigger w.fate(t)} :: w.fate(t).fails
    ensures Reconcile(w, c, true, applied).err.None? && item in Reconcile(w, c, true, applied).world.owned
  {
    hide World.Valid, Teardown, AllDeletionsFail, TeardownScript, Establish;
    AllFail(w.fate, w.now, TeardownScript(applied), item);
    TeardownLeaves(w, applied, item);
  }
}
