/** A reconcile that succeeds has brought the kernel to the configured state. */
module Convergence {
  import opened Options
  import opened Addresses
  import opened Kernel
  import opened Config
  import opened Backend
  import opened AddressLaws
  import opened LanLaws
  import opened TeardownLaws
  import opened FirewallLaws
  import opened LinkLaws
  import opened ReconcileLaws

  // ---------------------------------------------------------------- the route source

  function GatewayCandidates(ns: seq<NetworkConfig>): (s: seq<Option<Address>>)
    ensures |s| == |ns|
    ensures forall i :: 0 <= i < |ns| ==>
      s[i] == if GatewayOf(ns[i].prefix).Some? then Some(GatewayOf(ns[i].prefix).value.addr) else None
  {
    seq(|ns|, i requires 0 <= i < |ns| =>
      if GatewayOf(ns[i].prefix).Some? then Some(GatewayOf(ns[i].prefix).value.addr) else None)
  }

  /** Where a source address may come from, in order: the tunnel's address, then the gateways. */
  function Candidates(c: Config): seq<Option<Address>> {
    var p := c.tunnel.localIPv6.Parse();
    [if p.Some? then Some(p.value.addr) else None] + GatewayCandidates(c.lan.networks)
  }

  /** `a` is the first preferred address of the list and nothing before it is malformed. */
  predicate FirstPreferredAt(s: seq<Option<Address>>, k: int) {
    && 0 <= k < |s|
    && s[k].Some? && IsPreferredSource(s[k].value)
    && forall j :: 0 <= j < k ==> s[j].Some? && !IsPreferredSource(s[j].value)
  }

  predicate NonePreferred(s: seq<Option<Address>>) {
    forall j :: 0 <= j < |s| ==> s[j].Some? && !IsPreferredSource(s[j].value)
  }

  /** The choice among the candidates, said without recursion. */
  ghost predicate IsChoice(s: seq<Option<Address>>, r: SourceChoice) {
    match r
    case Source(a) => exists k :: FirstPreferredAt(s, k) && s[k] == Some(a)
    case NoSource => NonePreferred(s)
    case BadSource(_) => !NonePreferred(s) && forall k :: !FirstPreferredAt(s, k)
  }

  lemma {:induction false} ChoiceStep(s: seq<Option<Address>>, r: SourceChoice)
    requires s != []
    requires if s[0].None? then r.BadSource?
             else if IsPreferredSource(s[0].value) then r == Source(s[0].value) else IsChoice(s[1..], r)
    ensures IsChoice(s, r)
  {
    hide IsPreferredSource;
    if s[0].None? {
      assert !NonePreferred(s);
    } else if IsPreferredSource(s[0].value) {
      assert FirstPreferredAt(s, 0);
    } else {
      forall k
        ensures FirstPreferredAt(s[1..], k - 1) <==> FirstPreferredAt(s, k)
      {
        PreferredShift(s, k);
      }
      assert NonePreferred(s[1..]) <==> NonePreferred(s) by {
        if NonePreferred(s[1..]) {
          assert forall j :: 0 < j < |s| ==> s[j] == s[1..][j - 1];
        }
      }
      if r.Source? {
        var k :| FirstPreferredAt(s[1..], k) && s[1..][k] == Some(r.address);
        assert FirstPreferredAt(s[1..], (k + 1) - 1);
        assert FirstPreferredAt(s, k + 1);
      }
    }
  }

  lemma PreferredShift(s: seq<Option<Address>>, k: int)
    requires s != [] && s[0].Some? && !IsPreferredSource(s[0].value)
    ensures FirstPreferredAt(s[1..], k - 1) <==> FirstPreferredAt(s, k)
  {
    hide IsPreferredSource;
    if FirstPreferredAt(s[1..], k - 1) {
      forall j | 0 <= j < k
        ensures s[j].Some? && !IsPreferredSource(s[j].value)
      {
        if j > 0 {
          assert s[j] == s[1..][j - 1];
        }
      }
    }
  }

  lemma {:induction false} NetworksChoice(ns: seq<NetworkConfig>)
    ensures IsChoice(GatewayCandidates(ns), SourceOfNetworks(ns))
  {
    if ns != [] {
      var s := GatewayCandidates(ns);
      NetworksChoice(ns[1..]);
      assert s[1..] == GatewayCandidates(ns[1..]);
      GatewayTextParses(ns[0].prefix);
      hide IsPreferredSource, IsChoice, GatewayOf, GatewayForPrefix;
      ChoiceStep(s, SourceOfNetworks(ns));
    } else {
      hide IsPreferredSource;
    }
  }

  /** The route source is the first preferred address -- global and not unique local -- among the
      tunnel's own and the gateways; there is none exactly if all parse and none is preferred. */
  lemma {:induction false} SourceIsFirstPreferred(c: Config)
    ensures IsChoice(Candidates(c), SelectSource(c))
  {
    NetworksChoice(c.lan.networks);
    var s := Candidates(c);
    assert s[1..] == GatewayCandidates(c.lan.networks);
    hide IsPreferredSource, IsChoice, SourceOfNetworks;
    ChoiceStep(s, SelectSource(c));
  }

  // ---------------------------------------------------------------- the configured state

  /** Every managed address is there and usable. */
  ghost predicate AllHealthy(n: Network, c: Config) {
    && IsHealthy(n, TUNNEL, c.tunnel.localIPv6)
    && (c.lan.enabled ==> AllNetworksHealthy(n, c.lan.networks))
  }

  /** No LAN network is put on the tunnel device; validation does not forbid it. */
  predicate LANOffTunnel(c: Config) {
    forall i :: 0 <= i < |c.lan.networks| ==> c.lan.networks[i].iface != TUNNEL
  }

  /** The kernel holds what the config asks for. */
  ghost predicate Converged(n: Network, c: Config, wan4: string) {
    && LinkIsUp(n, c, wan4)
    && AllHealthy(n, c)
    && n.forwarding
    && n.default6 == Some(DefaultRoute(ChosenSource(c)))
    && (ChosenSource(c).Some? ==> n.Assigned(ChosenSource(c).value))
  }

  lemma HealthyAssigns(n: Network, dev: string, text: PrefixText)
    requires IsHealthy(n, dev, text)
    ensures n.Assigned(text.Parse().value.addr)
  {
    assert (dev, text.Parse().value) in n.addrs.Keys;
  }

  /** With LAN enabled the chosen source is one of the addresses just made usable. */
  lemma {:induction false} SourceIsManaged(n: Network, c: Config)
    requires AllHealthy(n, c) && c.lan.enabled
    ensures !SelectSource(c).BadSource?
    ensures ChosenSource(c).Some? ==> n.Assigned(ChosenSource(c).value)
  {
    SourceIsFirstPreferred(c);
    var s := Candidates(c);
    var r := SelectSource(c);
    hide SelectSource, IsPreferredSource, Network.Assigned, IsHealthy, Candidates;
    forall k | 0 <= k < |s|
      ensures s[k].Some? && n.Assigned(s[k].value)
    {
      CandidateAssigned(n, c, k);
    }
    if r.BadSource? {
      EitherPreferred(s);
    }
  }

  lemma CandidateAssigned(n: Network, c: Config, k: nat)
    requires AllHealthy(n, c) && c.lan.enabled && k < |Candidates(c)|
    ensures Candidates(c)[k].Some? && n.Assigned(Candidates(c)[k].value)
  {
    if k == 0 {
      HealthyAssigns(n, TUNNEL, c.tunnel.localIPv6);
      assert IsHealthy(n, TUNNEL, c.tunnel.localIPv6);
    } else {
      var nw := c.lan.networks[k - 1];
      assert NetworkHealthy(n, nw);
      GatewayTextParses(nw.prefix);
      HealthyAssigns(n, nw.iface, GatewayForPrefix(nw.prefix).value);
    }
    hide Network.Assigned, AllHealthy, GatewayForPrefix;
  }

  /** A list without malformed entries has a first preferred one or none at all. */
  lemma {:induction false} EitherPreferred(s: seq<Option<Address>>)
    requires forall j :: 0 <= j < |s| ==> s[j].Some?
    ensures NonePreferred(s) || exists k :: FirstPreferredAt(s, k)
  {
    hide IsPreferredSource;
    if s != [] {
      if IsPreferredSource(s[0].value) {
        assert FirstPreferredAt(s, 0);
      } else {
        EitherPreferred(s[1..]);
        if NonePreferred(s[1..]) {
          assert forall j :: 0 < j < |s| ==> s[j] == s[1..][j - 1];
        } else {
          var k :| FirstPreferredAt(s[1..], k);
          PreferredShift(s, k + 1);
        }
      }
    }
  }

  // ---------------------------------------------------------------- convergence

  lemma LanUsesNoTunnel(c: Config)
    requires LANOffTunnel(c)
    ensures !Uses(c.lan.networks, TUNNEL)
  {
  }

  lemma SameEntryHealthy(n: Network, n': Network, dev: string, text: PrefixText)
    requires forall key: Key :: key.0 == dev ==> SameEntry(n.addrs, n'.addrs, key)
    ensures IsHealthy(n, dev, text) <==> IsHealthy(n', dev, text)
  {
    if text.Parse().Some? {
      assert SameEntry(n.addrs, n'.addrs, (dev, text.Parse().value));
    }
  }

  /** The addresses stage: when it succeeds every managed address is usable. */
  lemma {:induction false} AddressesEstablish(w: World, c: Config)
    requires w.Valid() && LANOffTunnel(c)
    requires BringUpAddresses(w, c).err.None?
    ensures var n' := BringUpAddresses(w, c).world.kernel.net;
            AllHealthy(n', c) && n'.forwarding && (TUNNEL in n'.ipv6Off <==> TUNNEL in w.kernel.net.ipv6Off)
  {
    hide World.Valid, EnsureAddress, Run, ReadyNetworks, AllNetworksHealthy, IsHealthy;
    var a := EnsureAddress(w, TUNNEL, c.tunnel.localIPv6);
    EnsureAddressEnsures(w, TUNNEL, c.tunnel.localIPv6);
    assert a.err.None?;
    assert IsHealthy(a.world.kernel.net, TUNNEL, c.tunnel.localIPv6);
    OnwardValid(w, a.world);
    var f := Run(a.world, Routing(ForwardingOn));
    ForwardingFrame(a.world, c);
    AddressesFrameValid(a.world, c, f.world);
    assert f.world.kernel.net.addrs == a.world.kernel.net.addrs;
    SameEntryHealthy(a.world.kernel.net, f.world.kernel.net, TUNNEL, c.tunnel.localIPv6);
    hide Ensured, Onward;
    if c.lan.enabled {
      var o := ReadyNetworks(f.world, c.lan.networks, {});
      ReadyNetworksEstablish(f.world, c.lan.networks, {}, {});
      ReadyNetworksFrame(f.world, c.lan.networks, {});
      LanUsesNoTunnel(c);
      hide Uses;
      SameEntryHealthy(f.world.kernel.net, o.world.kernel.net, TUNNEL, c.tunnel.localIPv6);
    }
  }

  lemma AllHealthySame(n: Network, n': Network, c: Config)
    requires n.addrs == n'.addrs
    ensures AllHealthy(n, c) <==> AllHealthy(n', c)
    ensures forall a :: n.Assigned(a) <==> n'.Assigned(a)
  {
    assert forall nw :: NetworkHealthy(n, nw) <==> NetworkHealthy(n', nw);
  }

  lemma {:induction false} BringUpConverges(w: World, c: Config, wan4: string)
    requires w.Valid() && LANOffTunnel(c)
    requires BringUp(w, c, wan4).err.None?
    ensures Converged(BringUp(w, c, wan4).world.kernel.net, c, wan4)
  {
    hide World.Valid, BringUpLink, BringUpAddresses, BringUpRoute, FirewallUp, AllHealthy, ChosenSource,
         Network.Assigned, LANOffTunnel;
    var l := BringUpLink(w, c, wan4);
    BringUpLinkFrame(w, c, wan4);
    LinkFrameValid(w, c, l.world);
    BringUpLinkEstablishes(w, c, wan4);
    var a := BringUpAddresses(l.world, c);
    BringUpAddressesFrame(l.world, c);
    AddressesFrameValid(l.world, c, a.world);
    AddressesEstablish(l.world, c);
    var r := BringUpRoute(a.world, c);
    BringUpRouteFrame(a.world, c);
    OnwardValid(a.world, r.world);
    FirewallUpOnlyFirewall(r.world, c.server.wanInterface);
    AllHealthySame(a.world.kernel.net, r.world.kernel.net, c);
    hide Onward, OnlyLink, World.Calm;
  }

  /** The MTU a config resolves to on these devices. */
  function TargetMTU(n: Network, c: Config): Option<int> {
    if c.tunnel.mtu > 0 then Some(c.tunnel.mtu)
    else if c.server.wanInterface in n.links then Some(n.links[c.server.wanInterface] - TUNNEL_OVERHEAD)
    else None
  }

  /** The result of one establishing run on devices `n`: the MTU is resolved in the config handed back,
      nothing else in it is touched, and the kernel agrees with it. */
  ghost predicate Reached(n: Network, c: Config, r: Reconciled) {
    && c.server.wanInterface in n.wan4
    && Converged(r.world.kernel.net, r.config, n.wan4[c.server.wanInterface])
    && Some(r.config.tunnel.mtu) == TargetMTU(n, c)
    && r.config == WithMTU(c, r.config.tunnel.mtu)
  }

  lemma {:induction false} EstablishConverges(w: World, c: Config)
    requires w.Valid() && LANOffTunnel(c)
    requires Establish(w, c).err.None?
    ensures Reached(w.kernel.net, c, Establish(w, c))
  {
    hide World.Valid, ReadWAN4, ResolveMTU, BringUp, World.Calm, SameSurroundings, Converged, Onward, LinkIsUp,
         SelectSource;
    var ip := ReadWAN4(w, c.server.wanInterface);
    ReadWAN4Reads(w, c.server.wanInterface);
    OnwardValid(w, ip.world);
    var mtu := ResolveMTU(ip.world, c.tunnel.mtu, c.server.wanInterface);
    ResolveMTUReads(ip.world, c.tunnel.mtu, c.server.wanInterface);
    OnwardValid(ip.world, mtu.world);
    var resolved := WithMTU(c, mtu.value.value);
    assert LANOffTunnel(resolved);
    BringUpConverges(mtu.world, resolved, ip.value.value);
  }

  lemma ReachedSame(n: Network, n': Network, c: Config, r: Reconciled)
    requires Reached(n, c, r) && n'.wan4 == n.wan4 && n'.links == n.links
    ensures Reached(n', c, r)
  {
    hide Converged;
  }

  /** Convergence. From any kernel state and any recorded footprint, if the reconcile of a valid,
      enabled config succeeds then the tunnel is up as configured, all managed addresses are usable --
      for any number of networks, also several or duplicates on one device -- and the default route
      uses the chosen source. No command is assumed to work. */
  lemma {:induction false} ReconcileConverges(w: World, c: Config, applied: AppliedState)
    requires w.Valid() && LANOffTunnel(c) && c.tunnel.enabled
    requires Reconcile(w, c, true, applied).err.None?
    ensures Reached(w.kernel.net, c, Reconcile(w, c, true, applied))
  {
    var down := Teardown(w, applied);
    TeardownReduces(w, applied);
    ReducedValid(w, down);
    hide World.Valid, World.Calm, Teardown, Establish, Reduced, Reached;
    EstablishConverges(down, c);
    ReachedSame(down.kernel.net, w.kernel.net, c, Establish(down, c));
  }
}
