/** Duplicate detection: a reconcile switches it off on its LAN devices, so that repairs heal from then on. */
module DetectionLaws {
  import opened Kernel
  import opened Config
  import opened Backend
  import opened AddressLaws
  import opened LanLaws
  import opened TeardownLaws
  import opened FirewallLaws
  import opened LinkLaws
  import opened ReconcileLaws
  import opened Convergence
  import opened RepairLaws

  predicate DetectionOff(n: Network, ns: seq<NetworkConfig>) {
    forall i :: 0 <= i < |ns| ==> ns[i].iface in n.dadOff
  }

  /** The loop switches detection off on every device it goes through. */
  lemma {:induction false} ReadyNetworksSwitchOff(w: World, ns: seq<NetworkConfig>, managed: set<string>)
    requires w.Valid() && managed <= w.kernel.net.dadOff && ReadyNetworks(w, ns, managed).err.None?
    ensures var n := ReadyNetworks(w, ns, managed).world.kernel.net; DetectionOff(n, ns) && managed <= n.dadOff
    decreases |ns|
  {
    hide World.Valid, ReadyNetwork, NetworkHealthy;
    if ns != [] {
      var a := ReadyNetwork(w, ns[0], managed);
      ReadyNetworkHandles(w, ns[0], managed);
      HandledValid(w, ns[0], ns[0].iface !in managed, a);
      ReadyNetworkHealthy(w, ns[0], managed);
      hide Handled, Onward;
      ReadyNetworksSwitchOff(a.world, ns[1..], managed + {ns[0].iface});
      assert forall i :: 0 < i < |ns| ==> ns[i] == ns[1..][i - 1];
    }
  }

  lemma {:induction false} AddressesSwitchOff(w: World, c: Config)
    requires w.Valid() && c.lan.enabled && BringUpAddresses(w, c).err.None?
    ensures DetectionOff(BringUpAddresses(w, c).world.kernel.net, c.lan.networks)
  {
    hide World.Valid, EnsureAddress, Run, ReadyNetworks, AddressesFrame, DetectionOff;
    var a := EnsureAddress(w, TUNNEL, c.tunnel.localIPv6);
    TunnelAddressFrame(w, c);
    AddressesFrameValid(w, c, a.world);
    var f := Run(a.world, Routing(ForwardingOn));
    ForwardingFrame(a.world, c);
    AddressesFrameValid(a.world, c, f.world);
    hide Onward;
    ReadyNetworksSwitchOff(f.world, c.lan.networks, {});
  }

  lemma {:induction false} BringUpSwitchesOff(w: World, c: Config, wan4: string)
    requires w.Valid() && c.lan.enabled && BringUp(w, c, wan4).err.None?
    ensures DetectionOff(BringUp(w, c, wan4).world.kernel.net, c.lan.networks)
  {
    hide World.Valid, BringUpLink, BringUpAddresses, BringUpRoute, FirewallUp, DetectionOff, Network.Assigned;
    var l := BringUpLink(w, c, wan4);
    BringUpLinkFrame(w, c, wan4);
    LinkFrameValid(w, c, l.world);
    var a := BringUpAddresses(l.world, c);
    BringUpAddressesFrame(l.world, c);
    AddressesFrameValid(l.world, c, a.world);
    AddressesSwitchOff(l.world, c);
    var r := BringUpRoute(a.world, c);
    BringUpRouteFrame(a.world, c);
    OnwardValid(a.world, r.world);
    FirewallUpOnlyFirewall(r.world, c.server.wanInterface);
    OffSame(a.world.kernel.net, FirewallUp(r.world, c.server.wanInterface).kernel.net, c.lan.networks);
    hide Onward, OnlyLink, World.Calm;
  }

  lemma OffSame(n: Network, n': Network, ns: seq<NetworkConfig>)
    requires n.dadOff <= n'.dadOff
    ensures DetectionOff(n, ns) ==> DetectionOff(n', ns)
  {
  }

  lemma {:induction false} EstablishSwitchesOff(w: World, c: Config)
    requires w.Valid() && c.lan.enabled && Establish(w, c).err.None?
    ensures DetectionOff(Establish(w, c).world.kernel.net, c.lan.networks)
  {
    hide World.Valid, ReadWAN4, ResolveMTU, World.Calm, BringUp, DetectionOff;
    var wan := c.server.wanInterface;
    var ip := ReadWAN4(w, wan);
    ReadWAN4Reads(w, wan);
    OnwardValid(w, ip.world);
    var mtu := ResolveMTU(ip.world, c.tunnel.mtu, wan);
    ResolveMTUReads(ip.world, c.tunnel.mtu, wan);
    OnwardValid(ip.world, mtu.world);
    BringUpSwitchesOff(mtu.world, WithMTU(c, mtu.value.value), ip.value.value);
  }

  /** A successful reconcile with LAN enabled leaves duplicate detection off on every LAN device. */
  lemma {:induction false} ReconcileSwitchesOff(w: World, c: Config, applied: AppliedState)
    requires w.Valid() && c.tunnel.enabled && c.lan.enabled && Reconcile(w, c, true, applied).err.None?
    ensures DetectionOff(Reconcile(w, c, true, applied).world.kernel.net, c.lan.networks)
  {
    hide World.Valid, Teardown, Establish, DetectionOff, Onward;
    TeardownReduces(w, applied);
    ReducedValid(w, Teardown(w, applied));
    EstablishSwitchesOff(Teardown(w, applied), c);
  }

  /** So whatever became of the addresses since a successful reconcile, a successful repair brings them all
      back, if the LAN devices are still switched as it left them. */
  lemma {:induction false} RepairHealsAfterReconcile(w: World, c: Config, applied: AppliedState, later: World)
    requires w.Valid() && c.tunnel.enabled && Reconcile(w, c, true, applied).err.None?
    requires later.Valid() && Reconcile(w, c, true, applied).world.kernel.net.dadOff <= later.kernel.net.dadOff
    requires RepairAddresses(later, c).err.None?
    ensures AllHealthy(RepairAddresses(later, c).world.kernel.net, c)
  {
    hide World.Valid, Reconcile, RepairAddresses, AllHealthy;
    if c.lan.enabled {
      ReconcileSwitchesOff(w, c, applied);
      OffSame(Reconcile(w, c, true, applied).world.kernel.net, later.kernel.net, c.lan.networks);
      OffIsMendable(later.kernel.net, c.lan.networks);
    }
    RepairHeals(later, c);
  }

  lemma OffIsMendable(n: Network, ns: seq<NetworkConfig>)
    requires DetectionOff(n, ns)
    ensures Mendable(n, ns)
  {
    hide NetworkHealthy;
  }
}
