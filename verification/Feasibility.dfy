/** When a reconcile succeeds: without spurious failures exactly when the config can work on the
    devices that are there. */
module Feasibility {
  import opened Addresses
  import opened Kernel
  import opened Config
  import opened Backend
  import opened AddressLaws
  import opened LanLaws
  import opened TeardownLaws
  import opened LinkLaws
  import opened ReconcileLaws
  import opened Convergence

  /** Whether the default route can be set when LAN is disabled: the source may then be the gateway of
      a network that nobody has assigned. */
  ghost predicate SourceReady(n: Network, c: Config) {
    match SelectSource(c)
    case BadSource(_) => false
    case NoSource => true
    case Source(a) => (c.tunnel.localIPv6.Parse().Some? && a == c.tunnel.localIPv6.Parse().value.addr) || n.Assigned(a)
  }

  /** The config can work on this kernel. */
  ghost predicate Workable(n: Network, c: Config) {
    var wan := c.server.wanInterface;
    && wan != TUNNEL && wan in n.links && wan in n.wan4
    && 1 <= c.tunnel.ttl <= 255
    && TargetMTU(n, c).Some? && TUNNEL_MTU_MIN <= TargetMTU(n, c).value <= TUNNEL_MTU_MAX
    && c.tunnel.localIPv6.Parse().Some? && c.tunnel.localIPv6.Parse().value.addr.is6
    && (if c.lan.enabled then AllUsable(n, c.lan.networks) else SourceReady(n, c))
  }

  lemma AddressesSucceedIff(w: World, c: Config)
    requires w.Valid() && w.Calm() && LANOffTunnel(c)
    requires w.kernel.net.tunnel.Some? && TUNNEL !in w.kernel.net.ipv6Off
    ensures BringUpAddresses(w, c).err.None? <==>
            (&& c.tunnel.localIPv6.Parse().Some?
             && c.tunnel.localIPv6.Parse().value.addr.is6
             && (c.lan.enabled ==> AllUsable(w.kernel.net, c.lan.networks)))
  {
    hide World.Valid, EnsureAddress, Run, ReadyNetworks, World.Calm, AllUsable;
    var a := EnsureAddress(w, TUNNEL, c.tunnel.localIPv6);
    EnsureAddressSucceedsIff(w, TUNNEL, c.tunnel.localIPv6);
    HealthyMeansOn(w, TUNNEL, c.tunnel.localIPv6);
    EnsureAddressEnsures(w, TUNNEL, c.tunnel.localIPv6);
    TunnelAddressFrame(w, c);
    OnwardValid(w, a.world);
    if a.err.None? {
      var f := Run(a.world, Routing(ForwardingOn));
      ForwardingFrame(a.world, c);
      OnwardValid(a.world, f.world);
      ReadyNetworksSucceedIff(f.world, c.lan.networks, {});
      assert f.world.kernel.net.ipv6Off == w.kernel.net.ipv6Off by {
        EnsuredFrameOff(w, TUNNEL, c.tunnel.localIPv6, a);
      }
      AllUsableSame(w.kernel.net, f.world.kernel.net, c.lan.networks);
    }
    hide Ensured, Onward, IsHealthy;
  }

  lemma EnsuredFrameOff(w: World, dev: string, text: PrefixText, o: Outcome)
    requires Ensured(w, dev, text, o)
    ensures o.world.kernel.net.ipv6Off == w.kernel.net.ipv6Off
  {
    EnsuredFrame(w, dev, text, o);
    hide Ensured;
  }

  lemma RouteSucceedsIff(w: World, c: Config)
    requires w.Valid() && w.Calm() && w.kernel.net.tunnel.Some? && w.kernel.net.tunnel.value.up
    ensures BringUpRoute(w, c).err.None? <==>
            !SelectSource(c).BadSource? && (ChosenSource(c).Some? ==> w.kernel.net.Assigned(ChosenSource(c).value))
  {
    hide SelectSource, World.Valid, Network.Assigned;
  }

  lemma LanUsableSame(n: Network, n': Network, c: Config)
    requires LANOffTunnel(c) && n.links == n'.links
    requires forall d :: d != TUNNEL ==> (d in n'.ipv6Off <==> d in n.ipv6Off)
    ensures AllUsable(n, c.lan.networks) <==> AllUsable(n', c.lan.networks)
  {
    hide GatewayOf;
    forall i | 0 <= i < |c.lan.networks|
      ensures Usable(n, c.lan.networks[i]) <==> Usable(n', c.lan.networks[i])
    {
      assert c.lan.networks[i].iface != TUNNEL;
    }
  }

  // ---------------------------------------------------------------- LAN disabled: the source

  /** A device without addresses of its own but link-local ones. */
  predicate OnlyLinkLocals(addrs: AddressTable, dev: string) {
    forall key <- addrs.Keys :: key.0 == dev ==> IsLinkLocal(key.1.addr)
  }

  lemma TunnelCommandLocals(n: Network, t: TunnelCommand, f: Fate)
    requires TunnelEffect(n, t, f).Some? && OnlyLinkLocals(n.addrs, TUNNEL)
    ensures OnlyLinkLocals(TunnelEffect(n, t, f).value.addrs, TUNNEL)
  {
    hide IsLinkLocal;
  }

  lemma {:induction false} LinkStepLocals(w: World, cmd: Command, c: Config)
    requires IsLinkCommand(cmd, c) && OnlyLinkLocals(w.kernel.net.addrs, TUNNEL)
    ensures OnlyLinkLocals(Run(w, cmd).world.kernel.net.addrs, TUNNEL)
  {
    var f := w.fate(w.now);
    if cmd.Tunnel? && Effect(w.kernel, cmd, f).Some? {
      TunnelCommandLocals(w.kernel.net, cmd.tunnel, f);
    }
    hide OnlyLinkLocals, TunnelEffect, Present, Creates;
  }

  lemma {:induction false} LinkScriptLocals(w: World, c: Config, cs: seq<Command>)
    requires OnlyLinkLocals(w.kernel.net.addrs, TUNNEL)
    requires forall cmd <- cs :: IsLinkCommand(cmd, c)
    ensures OnlyLinkLocals(RunAll(w, cs).world.kernel.net.addrs, TUNNEL)
    decreases |cs|
  {
    hide OnlyLinkLocals, Run;
    if cs != [] {
      LinkStepLocals(w, cs[0], c);
      if Run(w, cs[0]).err.None? {
        LinkScriptLocals(Run(w, cs[0]).world, c, cs[1..]);
      }
    }
  }

  lemma NoTunnelNoAddresses(w: World)
    requires w.Valid() && w.kernel.net.tunnel.None?
    ensures forall key: Key :: key.0 == TUNNEL ==> key !in w.kernel.net.addrs
  {
  }

  /** After the link came up, the tunnel device has at most link-local addresses. */
  lemma {:induction false} BringUpLinkLocals(w: World, c: Config, wan4: string)
    requires w.Valid() && w.kernel.net.tunnel.None?
    ensures OnlyLinkLocals(BringUpLink(w, c, wan4).world.kernel.net.addrs, TUNNEL)
  {
    NoTunnelNoAddresses(w);
    ModprobeFrame(w);
    var w1 := BestEffort(w, [Read(Modprobe)]);
    hide BestEffort, RunAll, World.Valid, Onward, IsLinkLocal;
    assert OnlyLinkLocals(w1.kernel.net.addrs, TUNNEL);
    hide OnlyLinkLocals;
    LinkScriptLocals(w1, c, LinkScript(c, wan4));
  }

  /** Bringing up the link assigns nothing that could be a route source. */
  lemma {:induction false} LinkAssignsNothing(w: World, c: Config, wan4: string, a: Address)
    requires w.Valid() && w.kernel.net.tunnel.None? && IsPreferredSource(a)
    ensures BringUpLink(w, c, wan4).world.kernel.net.Assigned(a) <==> w.kernel.net.Assigned(a)
  {
    var n, n' := w.kernel.net, BringUpLink(w, c, wan4).world.kernel.net;
    BringUpLinkFrame(w, c, wan4);
    BringUpLinkLocals(w, c, wan4);
    NoTunnelNoAddresses(w);
    assert !IsLinkLocal(a);
    hide BringUpLink, World.Valid, Onward, IsLinkLocal, IsPreferredSource;
    AssignedElsewhere(n, n', TUNNEL, a);
  }

  lemma AssignedElsewhere(n: Network, n': Network, dev: string, a: Address)
    requires forall key: Key :: key.0 != dev ==> SameEntry(n.addrs, n'.addrs, key)
    requires forall key: Key :: key.0 == dev && key in n.addrs ==> key.1.addr != a
    requires forall key: Key :: key.0 == dev && key in n'.addrs ==> key.1.addr != a
    ensures n'.Assigned(a) <==> n.Assigned(a)
  {
    if n.Assigned(a) {
      var key :| key in n.addrs.Keys && key.1.addr == a && n.addrs[key];
      assert SameEntry(n.addrs, n'.addrs, key);
      assert key in n'.addrs.Keys;
    }
    if n'.Assigned(a) {
      var key :| key in n'.addrs.Keys && key.1.addr == a && n'.addrs[key];
      assert SameEntry(n.addrs, n'.addrs, key);
      assert key in n.addrs.Keys;
    }
  }

  /** Ensuring an address assigns that address and no other. */
  lemma EnsureAssigns(w: World, dev: string, text: PrefixText, a: Address)
    requires w.Valid() && text.Parse().Some? && NoDad(w.kernel.net, dev)
    requires EnsureAddress(w, dev, text).err.None?
    ensures EnsureAddress(w, dev, text).world.kernel.net.Assigned(a)
       <==> w.kernel.net.Assigned(a) || a == text.Parse().value.addr
  {
    var n, n' := w.kernel.net, EnsureAddress(w, dev, text).world.kernel.net;
    var k := (dev, text.Parse().value);
    EnsureAddressEnsures(w, dev, text);
    HealthyAssigns(n', dev, text);
    hide EnsureAddress, World.Valid, Onward;
    if a != k.1.addr {
      if n.Assigned(a) {
        var key :| key in n.addrs.Keys && key.1.addr == a && n.addrs[key];
        assert SameEntry(n.addrs, n'.addrs, key);
        assert key in n'.addrs.Keys;
      }
      if n'.Assigned(a) {
        var key :| key in n'.addrs.Keys && key.1.addr == a && n'.addrs[key];
        assert SameEntry(n.addrs, n'.addrs, key);
        assert key in n.addrs.Keys;
      }
    }
  }

  lemma ForwardingAssigns(w: World, c: Config, a: Address)
    requires w.Valid()
    ensures Run(w, Routing(ForwardingOn)).world.kernel.net.Assigned(a) <==> w.kernel.net.Assigned(a)
  {
    assert Run(w, Routing(ForwardingOn)).world.kernel.net.addrs == w.kernel.net.addrs;
    hide Exec, World.Valid;
  }

  /** Which source addresses are assigned when the route is set, LAN being disabled. */
  lemma {:induction false} TunnelOnlyAssigns(w: World, c: Config, wan4: string, a: Address)
    requires w.Valid() && w.kernel.net.tunnel.None? && IsPreferredSource(a) && !c.lan.enabled
    requires BringUpLink(w, c, wan4).err.None?
    requires BringUpAddresses(BringUpLink(w, c, wan4).world, c).err.None?
    ensures BringUpAddresses(BringUpLink(w, c, wan4).world, c).world.kernel.net.Assigned(a)
       <==> w.kernel.net.Assigned(a) || a == c.tunnel.localIPv6.Parse().value.addr
  {
    hide BringUpLink, World.Valid, EnsureAddress, Run, Network.Assigned, IsPreferredSource;
    LinkAssignsNothing(w, c, wan4, a);
    var l := BringUpLink(w, c, wan4).world;
    BringUpLinkFrame(w, c, wan4);
    LinkFrameValid(w, c, l);
    EnsureAddressEnsures(l, TUNNEL, c.tunnel.localIPv6);
    var e := EnsureAddress(l, TUNNEL, c.tunnel.localIPv6);
    OnwardValid(l, e.world);
    EnsureAssigns(l, TUNNEL, c.tunnel.localIPv6, a);
    ForwardingAssigns(e.world, c, a);
    hide Onward, OnlyLink;
  }

  // ---------------------------------------------------------------- the whole

  lemma {:induction false} ChosenIsPreferred(c: Config)
    requires ChosenSource(c).Some?
    ensures IsPreferredSource(ChosenSource(c).value)
  {
    SourceIsFirstPreferred(c);
    hide SelectSource, IsPreferredSource, Candidates;
  }

  /** The route stage succeeds whenever its source is at hand. */
  lemma {:induction false} SourceAtHand(w: World, c: Config, wan4: string)
    requires w.Valid() && w.kernel.net.tunnel.None? && LANOffTunnel(c)
    requires BringUpLink(w, c, wan4).err.None?
    requires BringUpAddresses(BringUpLink(w, c, wan4).world, c).err.None?
    ensures var n := BringUpAddresses(BringUpLink(w, c, wan4).world, c).world.kernel.net;
            !SelectSource(c).BadSource? && (ChosenSource(c).Some? ==> n.Assigned(ChosenSource(c).value)) <==>
            (c.lan.enabled || SourceReady(w.kernel.net, c))
  {
    hide BringUpLink, BringUpAddresses, World.Valid, Network.Assigned, IsPreferredSource, SelectSource;
    var l := BringUpLink(w, c, wan4).world;
    BringUpLinkFrame(w, c, wan4);
    LinkFrameValid(w, c, l);
    hide LinkFrame, Onward;
    if c.lan.enabled {
      AddressesEstablish(l, c);
      SourceIsManaged(BringUpAddresses(l, c).world.kernel.net, c);
    } else {
      AddressesEstablish(l, c);
      if ChosenSource(c).Some? {
        ChosenIsPreferred(c);
        TunnelOnlyAssigns(w, c, wan4, ChosenSource(c).value);
      }
    }
    hide LANOffTunnel, AllNetworksHealthy;
  }

  lemma {:induction false} BringUpSucceedsIff(w: World, c: Config, wan4: string)
    requires w.Valid() && w.Calm() && w.kernel.net.tunnel.None? && LANOffTunnel(c)
    ensures BringUp(w, c, wan4).err.None? <==>
            (&& LinkPossible(w.kernel.net, c)
             && c.tunnel.localIPv6.Parse().Some? && c.tunnel.localIPv6.Parse().value.addr.is6
             && (if c.lan.enabled then AllUsable(w.kernel.net, c.lan.networks) else SourceReady(w.kernel.net, c)))
  {
    hide World.Valid, BringUpLink, BringUpAddresses, BringUpRoute, FirewallUp, World.Calm, AllUsable, SourceReady,
         SelectSource, LANOffTunnel, Network.Assigned;
    var l := BringUpLink(w, c, wan4);
    BringUpLinkFrame(w, c, wan4);
    LinkFrameValid(w, c, l.world);
    OnwardValid(w, l.world);
    BringUpLinkEstablishes(w, c, wan4);
    if l.err.None? {
      LanUsableSame(w.kernel.net, l.world.kernel.net, c);
      AddressesSucceedIff(l.world, c);
      var a := BringUpAddresses(l.world, c);
      BringUpAddressesFrame(l.world, c);
      AddressesFrameValid(l.world, c, a.world);
      OnwardValid(l.world, a.world);
      if a.err.None? {
        SourceAtHand(w, c, wan4);
        RouteSucceedsIff(a.world, c);
      }
    }
    hide Onward;
  }

  /** Feasibility. Without spurious failures, establishing succeeds if and only if the config can work
      on the devices that are there. */
  lemma {:induction false} EstablishSucceedsIff(w: World, c: Config)
    requires w.Valid() && w.Calm() && w.kernel.net.tunnel.None? && LANOffTunnel(c)
    ensures Establish(w, c).err.None? <==> Workable(w.kernel.net, c)
  {
    hide World.Valid, ReadWAN4, ResolveMTU, BringUp, World.Calm, SameSurroundings, AllUsable, SourceReady;
    var wan := c.server.wanInterface;
    var ip := ReadWAN4(w, wan);
    ReadWAN4Reads(w, wan);
    OnwardValid(w, ip.world);
    if ip.value.Some? {
      var mtu := ResolveMTU(ip.world, c.tunnel.mtu, wan);
      ResolveMTUReads(ip.world, c.tunnel.mtu, wan);
      OnwardValid(ip.world, mtu.world);
      if mtu.value.Some? {
        var resolved := WithMTU(c, mtu.value.value);
        assert LANOffTunnel(resolved);
        BringUpSucceedsIff(mtu.world, resolved, ip.value.value);
        SourceReadyIgnoresMTU(w.kernel.net, c, mtu.value.value);
      }
    }
    hide Onward;
  }

  lemma SourceReadyIgnoresMTU(n: Network, c: Config, mtu: int)
    ensures SourceReady(n, WithMTU(c, mtu)) <==> SourceReady(n, c)
  {
    hide SourceOfNetworks, SourceOfText, Network.Assigned;
  }

  /** A whole reconcile of a valid, enabled config, from any kernel state: it succeeds if and only if
      the config can work on the kernel that the teardown leaves. */
  lemma {:induction false} ReconcileSucceedsIff(w: World, c: Config, applied: AppliedState)
    requires w.Valid() && w.Calm() && LANOffTunnel(c) && c.tunnel.enabled
    ensures Reconcile(w, c, true, applied).err.None? <==> Workable(Teardown(w, applied).kernel.net, c)
  {
    var down := Teardown(w, applied);
    TeardownReduces(w, applied);
    ReducedValid(w, down);
    OnwardValid(w, down);
    TeardownRemovesTunnel(w, applied);
    hide World.Valid, World.Calm, Teardown, Establish, Reduced, Workable, LANOffTunnel;
    EstablishSucceedsIff(down, c);
  }

  /** With LAN enabled, what was there before does not matter: only the devices do. */
  lemma WorkableSame(n: Network, n': Network, c: Config)
    requires c.lan.enabled && LANOffTunnel(c)
    requires n'.links == n.links && n'.wan4 == n.wan4 && n'.ipv6Off == n.ipv6Off
    ensures Workable(n, c) <==> Workable(n', c)
  {
    LanUsableSame(n, n', c);
    hide AllUsable, LANOffTunnel;
  }

  lemma {:induction false} LanReconcileSucceedsIff(w: World, c: Config, applied: AppliedState)
    requires w.Valid() && w.Calm() && LANOffTunnel(c) && c.tunnel.enabled && c.lan.enabled
    ensures Reconcile(w, c, true, applied).err.None? <==> Workable(w.kernel.net, c)
  {
    ReconcileSucceedsIff(w, c, applied);
    TeardownReduces(w, applied);
    ReducedValid(w, Teardown(w, applied));
    hide World.Valid, World.Calm, Teardown, Reconcile, Workable, LANOffTunnel;
    WorkableSame(w.kernel.net, Teardown(w, applied).kernel.net, c);
  }
}
