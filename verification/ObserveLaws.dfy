/** What an observation tells about the kernel. */
module ObserveLaws {
  import opened Options
  import opened Text
  import opened Addresses
  import opened Kernel
  import opened Config
  import opened Backend
  import opened AddressLaws
  import opened LanLaws
  import opened Convergence

  /** Reading changes nothing but the time. */
  ghost predicate Unchanged(w: World, w': World) {
    Onward(w, w') && w'.kernel == w.kernel && w'.owned == w.owned
  }

  lemma UnchangedTrans(a: World, b: World, c: World)
    requires Unchanged(a, b) && Unchanged(b, c)
    ensures Unchanged(a, c)
  {
    OnwardTrans(a, b, c);
    hide Onward;
  }

  lemma UnchangedRefl(w: World)
    requires w.Valid()
    ensures Unchanged(w, w)
  {
    hide World.Valid, World.Calm;
  }

  lemma UnchangedValid(w: World, w': World)
    requires Unchanged(w, w')
    ensures w'.Valid() && w'.kernel == w.kernel && (w.Calm() ==> w'.Calm())
  {
  }

  lemma ExecReads(w: World, q: Query)
    requires w.Valid()
    ensures Unchanged(w, Exec(w, Read(q)).world)
  {
    ExecOnward(w, Read(q));
    ReadLeavesKernel(w, q);
    hide Exec, Onward, World.Valid;
  }

  lemma QueryReads(w: World, dev: string, text: PrefixText)
    requires w.Valid()
    ensures var q := QueryAddress(w, dev, text);
            && Unchanged(w, q.world)
            && (q.value.Some? <==> q.err.None?)
            && (q.value.Some? ==> text.Parse().Some? && q.value.value == StateOf(w.kernel.net, dev, text.Parse().value))
            && (w.Calm() ==> (q.value.Some? <==> text.Parse().Some? && w.kernel.net.HasDevice(dev)))
  {
    if text.Parse().Some? {
      ExecReads(w, ShowAddr6(dev));
      var d := Exec(w, Read(ShowAddr6(dev)));
      assert w.Calm() ==> (d.ok <==> w.kernel.net.HasDevice(dev));
      hide Exec;
    } else {
      UnchangedRefl(w);
    }
    hide Onward, World.Valid, World.Calm;
  }

  // ---------------------------------------------------------------- the missing addresses

  /** The config manages this address. */
  ghost predicate Manages(c: Config, dev: string, text: PrefixText) {
    || (dev == TUNNEL && text == c.tunnel.localIPv6)
    || (c.lan.enabled && ManagesGateway(c.lan.networks, dev, text))
  }

  ghost predicate ManagesGateway(ns: seq<NetworkConfig>, dev: string, text: PrefixText) {
    exists i :: 0 <= i < |ns| && ns[i].iface == dev && GatewayForPrefix(ns[i].prefix) == Some(text)
  }

  /** The entry is right: the address is not usable, and `unhealthy` tells whether it is there. */
  predicate Reports(n: Network, m: MissingAddress) {
    !IsHealthy(n, m.dev, m.text) && (m.unhealthy <==> IsThere(n, m.dev, m.text))
  }

  lemma ManagesGatewayStep(ns: seq<NetworkConfig>, dev: string, text: PrefixText)
    requires ns != []
    ensures ManagesGateway(ns, dev, text) <==>
            (ns[0].iface == dev && GatewayForPrefix(ns[0].prefix) == Some(text)) || ManagesGateway(ns[1..], dev, text)
  {
    hide GatewayForPrefix;
    if ManagesGateway(ns[1..], dev, text) {
      var i :| 0 <= i < |ns[1..]| && ns[1..][i].iface == dev && GatewayForPrefix(ns[1..][i].prefix) == Some(text);
      assert ns[1..][i] == ns[i + 1];
    }
    if ManagesGateway(ns, dev, text) {
      var i :| 0 <= i < |ns| && ns[i].iface == dev && GatewayForPrefix(ns[i].prefix) == Some(text);
      assert i > 0 ==> ns[1..][i - 1] == ns[i];
    }
  }

  lemma AppendReports(n: Network, missing: seq<MissingAddress>, dev: string, text: PrefixText)
    requires text.Parse().Some?
    ensures var more := AppendMissing(missing, dev, text, StateOf(n, dev, text.Parse().value));
            forall m: MissingAddress :: m in more <==> m in missing || (m.dev == dev && m.text == text && Reports(n, m))
  {
  }

  /** The loop adds exactly the gateways that are not usable; if nothing fails without reason it only
      fails on a network without gateway or on a device that is not there. */
  lemma {:induction false} MissingNetworksExact(w: World, ns: seq<NetworkConfig>, missing: seq<MissingAddress>)
    requires w.Valid()
    ensures var r := MissingNetworks(w, ns, missing);
            && Unchanged(w, r.world)
            && (r.value.Some? <==> r.err.None?)
            && (r.value.Some? ==> forall m: MissingAddress :: m in r.value.value <==>
                  m in missing || (ManagesGateway(ns, m.dev, m.text) && Reports(w.kernel.net, m)))
            && (w.Calm() ==> (r.value.Some? <==> AllReadable(w.kernel.net, ns)))
    decreases |ns|
  {
    hide World.Valid, World.Calm, Unchanged, QueryAddress, GatewayForPrefix, GatewayOf, Reports, AppendMissing;
    if ns == [] {
      UnchangedRefl(w);
    } else {
      GatewayTextParses(ns[0].prefix);
      AllReadableStep(w.kernel.net, ns);
      if GatewayForPrefix(ns[0].prefix).None? {
        UnchangedRefl(w);
      } else {
        var text := GatewayForPrefix(ns[0].prefix).value;
        var q := QueryAddress(w, ns[0].iface, text);
        QueryReads(w, ns[0].iface, text);
        UnchangedValid(w, q.world);
        if q.value.Some? {
          AppendReports(w.kernel.net, missing, ns[0].iface, text);
          var more := AppendMissing(missing, ns[0].iface, text, q.value.value);
          MissingNetworksExact(q.world, ns[1..], more);
          UnchangedTrans(w, q.world, MissingNetworks(w, ns, missing).world);
          forall m: MissingAddress
            ensures ManagesGateway(ns, m.dev, m.text) <==>
                    (ns[0].iface == m.dev && text == m.text) || ManagesGateway(ns[1..], m.dev, m.text)
          {
            ManagesGatewayStep(ns, m.dev, m.text);
          }
        }
      }
    }
    hide AllReadable, ManagesGateway;
  }

  /** The network has a gateway and its device is there. */
  predicate Readable(n: Network, nw: NetworkConfig) {
    GatewayOf(nw.prefix).Some? && n.HasDevice(nw.iface)
  }

  ghost predicate AllReadable(n: Network, ns: seq<NetworkConfig>) {
    forall i :: 0 <= i < |ns| ==> Readable(n, ns[i])
  }

  lemma AllReadableStep(n: Network, ns: seq<NetworkConfig>)
    requires ns != []
    ensures AllReadable(n, ns) <==> Readable(n, ns[0]) && AllReadable(n, ns[1..])
  {
    hide Readable;
    if Readable(n, ns[0]) && AllReadable(n, ns[1..]) {
      forall i | 0 <= i < |ns|
        ensures Readable(n, ns[i])
      {
        assert i > 0 ==> ns[1..][i - 1] == ns[i];
      }
    }
  }

  ghost predicate CanObserve(n: Network, c: Config) {
    && c.tunnel.localIPv6.Parse().Some? && n.HasDevice(TUNNEL)
    && (c.lan.enabled ==> AllReadable(n, c.lan.networks))
  }

  lemma {:induction false} CollectMissingExact(w: World, c: Config)
    requires w.Valid() && c.tunnel.enabled
    ensures var r := CollectMissing(w, Some(c));
            && Unchanged(w, r.world)
            && (r.value.Some? <==> r.err.None?)
            && (r.value.Some? ==> forall m: MissingAddress :: m in r.value.value <==>
                  Manages(c, m.dev, m.text) && Reports(w.kernel.net, m))
            && (w.Calm() ==> (r.value.Some? <==> CanObserve(w.kernel.net, c)))
  {
    hide World.Valid, World.Calm, Unchanged, QueryAddress, Reports, AppendMissing, MissingNetworks, AllReadable,
         ManagesGateway;
    var text := c.tunnel.localIPv6;
    var q := QueryAddress(w, TUNNEL, text);
    QueryReads(w, TUNNEL, text);
    UnchangedValid(w, q.world);
    if q.value.Some? {
      AppendReports(w.kernel.net, [], TUNNEL, text);
      if c.lan.enabled {
        var missing := AppendMissing([], TUNNEL, text, q.value.value);
        MissingNetworksExact(q.world, c.lan.networks, missing);
        UnchangedTrans(w, q.world, MissingNetworks(q.world, c.lan.networks, missing).world);
      }
    }
  }

  lemma ObserveWANReads(w: World, wan: string)
    requires w.Valid()
    ensures Unchanged(w, ObserveWAN(w, wan).world)
  {
    if IsBlank(wan) {
      UnchangedRefl(w);
    } else {
      ExecReads(w, ShowAddr4(wan));
    }
    hide Unchanged, Exec, World.Valid, IsBlank;
  }

  lemma ShowLinkTells(w: World)
    ensures Exec(w, Read(ShowLink(TUNNEL))).ok <==> w.kernel.net.tunnel.Some? && !w.fate(w.now).fails
  {
  }

  /** An observation changes nothing. When it reports no error, it lists exactly the managed addresses
      that are not usable, and says of each whether it is there; nothing failing without reason, it
      reports an error only if an address text or a device is missing, and sees the tunnel exactly if
      it is there. */
  lemma {:induction false} ObserveExact(w: World, wan: string, c: Config)
    requires w.Valid() && c.tunnel.enabled
    ensures var o := Observe(w, wan, Some(c));
            && Unchanged(w, o.world)
            && (o.observation.tunnelUp <==> w.kernel.net.tunnel.Some? && !w.fate(w.now).fails)
            && (o.err.None? ==> forall m: MissingAddress :: m in o.observation.missing <==>
                  Manages(c, m.dev, m.text) && Reports(w.kernel.net, m))
            && (o.err.Some? ==> o.observation.missing == [])
            && (w.Calm() ==> (o.err.None? <==> CanObserve(w.kernel.net, c)))
  {
    hide World.Valid, World.Calm, Unchanged, CollectMissing, ObserveWAN, Manages, Reports, Exec, CanObserve;
    var link := Exec(w, Read(ShowLink(TUNNEL)));
    ExecReads(w, ShowLink(TUNNEL));
    ShowLinkTells(w);
    UnchangedValid(w, link.world);
    var ip := ObserveWAN(link.world, wan);
    ObserveWANReads(link.world, wan);
    UnchangedTrans(w, link.world, ip.world);
    UnchangedValid(link.world, ip.world);
    CollectMissingExact(ip.world, c);
    UnchangedTrans(w, ip.world, CollectMissing(ip.world, Some(c)).world);
  }

  /** Looking without a config to check, as for a disabled or invalid one. */
  lemma ObserveNothing(w: World, wan: string)
    requires w.Valid()
    ensures var o := Observe(w, wan, None);
            && Unchanged(w, o.world) && o.err.None? && o.observation.missing == []
            && (o.observation.tunnelUp <==> w.kernel.net.tunnel.Some? && !w.fate(w.now).fails)
  {
    hide World.Valid, World.Calm, Unchanged, ObserveWAN, Exec;
    var link := Exec(w, Read(ShowLink(TUNNEL)));
    ExecReads(w, ShowLink(TUNNEL));
    ShowLinkTells(w);
    UnchangedValid(w, link.world);
    ObserveWANReads(link.world, wan);
    UnchangedTrans(w, link.world, ObserveWAN(link.world, wan).world);
  }

  lemma HasMember<T>(s: seq<T>)
    ensures s != [] ==> exists x :: x in s
  {
    if s != [] {
      assert s[0] in s;
    }
  }

  lemma HealthyNotReported(n: Network, c: Config, m: MissingAddress)
    requires AllHealthy(n, c)
    ensures !(Manages(c, m.dev, m.text) && Reports(n, m))
  {
    hide IsThere, GatewayForPrefix;
    if Manages(c, m.dev, m.text) && !(m.dev == TUNNEL && m.text == c.tunnel.localIPv6) {
      var i :| 0 <= i < |c.lan.networks| && c.lan.networks[i].iface == m.dev && GatewayForPrefix(c.lan.networks[i].prefix) == Some(m.text);
      assert NetworkHealthy(n, c.lan.networks[i]);
    }
  }

  /** Nothing is reported missing exactly when everything managed is usable. */
  lemma NothingMissingIff(n: Network, c: Config, missing: seq<MissingAddress>)
    requires forall m: MissingAddress :: m in missing <==> Manages(c, m.dev, m.text) && Reports(n, m)
    requires c.lan.enabled ==> forall i :: 0 <= i < |c.lan.networks| ==> GatewayForPrefix(c.lan.networks[i].prefix).Some?
    ensures missing == [] <==> AllHealthy(n, c)
  {
    hide IsHealthy, IsThere, GatewayForPrefix;
    var t := MissingAddress(TUNNEL, c.tunnel.localIPv6, IsThere(n, TUNNEL, c.tunnel.localIPv6));
    assert t in missing <==> Reports(n, t);
    if AllHealthy(n, c) {
      forall m: MissingAddress
        ensures m !in missing
      {
        HealthyNotReported(n, c, m);
      }
      HasMember(missing);
    } else if c.lan.enabled && IsHealthy(n, TUNNEL, c.tunnel.localIPv6) {
      var i :| 0 <= i < |c.lan.networks| && !NetworkHealthy(n, c.lan.networks[i]);
      var nw := c.lan.networks[i];
      var text := GatewayForPrefix(nw.prefix).value;
      var m := MissingAddress(nw.iface, text, IsThere(n, nw.iface, text));
      assert Manages(c, m.dev, m.text) && Reports(n, m);
    }
  }

  lemma {:induction false} MissingNetworksGateways(w: World, ns: seq<NetworkConfig>, missing: seq<MissingAddress>)
    requires MissingNetworks(w, ns, missing).err.None?
    ensures forall i :: 0 <= i < |ns| ==> GatewayForPrefix(ns[i].prefix).Some?
    decreases |ns|
  {
    hide QueryAddress, GatewayForPrefix;
    if ns != [] {
      var text := GatewayForPrefix(ns[0].prefix).value;
      var q := QueryAddress(w, ns[0].iface, text);
      QueryGives(w, ns[0].iface, text);
      MissingNetworksGateways(q.world, ns[1..], AppendMissing(missing, ns[0].iface, text, q.value.value));
      forall i | 0 <= i < |ns|
        ensures GatewayForPrefix(ns[i].prefix).Some?
      {
        assert i > 0 ==> ns[1..][i - 1] == ns[i];
      }
    }
  }

  lemma QueryGives(w: World, dev: string, text: PrefixText)
    ensures QueryAddress(w, dev, text).value.Some? <==> QueryAddress(w, dev, text).err.None?
  {
    hide Exec;
  }

  lemma {:induction false} ObservedGateways(w: World, wan: string, c: Config)
    requires c.tunnel.enabled && Observe(w, wan, Some(c)).err.None?
    ensures c.lan.enabled ==> forall i :: 0 <= i < |c.lan.networks| ==> GatewayForPrefix(c.lan.networks[i].prefix).Some?
  {
    hide Exec, ObserveWAN, QueryAddress, GatewayForPrefix, MissingNetworks;
    var w1 := ObserveWAN(Exec(w, Read(ShowLink(TUNNEL))).world, wan).world;
    var q := QueryAddress(w1, TUNNEL, c.tunnel.localIPv6);
    QueryGives(w1, TUNNEL, c.tunnel.localIPv6);
    if c.lan.enabled {
      MissingNetworksGateways(q.world, c.lan.networks, AppendMissing([], TUNNEL, c.tunnel.localIPv6, q.value.value));
    }
  }

  /** The verdict of an observation that reports no error: nothing missing if and only if every managed
      address is usable. */
  lemma {:induction false} ObserveVerdict(w: World, wan: string, c: Config)
    requires w.Valid() && c.tunnel.enabled && Observe(w, wan, Some(c)).err.None?
    ensures Observe(w, wan, Some(c)).observation.missing == [] <==> AllHealthy(w.kernel.net, c)
  {
    ObserveExact(w, wan, c);
    ObservedGateways(w, wan, c);
    hide Observe, Manages, Reports, AllHealthy, World.Valid, Unchanged, CanObserve, GatewayForPrefix;
    NothingMissingIff(w.kernel.net, c, Observe(w, wan, Some(c)).observation.missing);
  }

  lemma HealthyIsReadable(w: World, dev: string, text: PrefixText)
    requires w.Valid() && IsHealthy(w.kernel.net, dev, text)
    ensures w.kernel.net.HasDevice(dev)
  {
  }

  /** Once everything is usable, an observation that no failure disturbs says so. */
  lemma {:induction false} HealthyIsObserved(w: World, wan: string, c: Config)
    requires w.Valid() && w.Calm() && c.tunnel.enabled && AllHealthy(w.kernel.net, c)
    ensures var o := Observe(w, wan, Some(c)); o.err.None? && o.observation.missing == [] && o.observation.tunnelUp
  {
    ObserveExact(w, wan, c);
    HealthyIsReadable(w, TUNNEL, c.tunnel.localIPv6);
    hide Observe, World.Valid, Unchanged, IsHealthy, GatewayOf, GatewayForPrefix;
    if c.lan.enabled {
      forall i | 0 <= i < |c.lan.networks|
        ensures Readable(w.kernel.net, c.lan.networks[i])
      {
        var nw := c.lan.networks[i];
        assert NetworkHealthy(w.kernel.net, nw);
        GatewayTextParses(nw.prefix);
        HealthyGatewayParses(w.kernel.net, nw.iface, GatewayForPrefix(nw.prefix).value);
        HealthyIsReadable(w, nw.iface, GatewayForPrefix(nw.prefix).value);
      }
    }
    HealthyGatewayParses(w.kernel.net, TUNNEL, c.tunnel.localIPv6);
    hide AllHealthy, Manages, Reports;
    assert CanObserve(w.kernel.net, c);
    ObserveVerdict(w, wan, c);
  }

  lemma HealthyGatewayParses(n: Network, dev: string, text: PrefixText)
    requires IsHealthy(n, dev, text)
    ensures text.Parse().Some?
  {
  }

  lemma ProbeReads(w: World)
    requires w.Valid()
    ensures Unchanged(w, Probe(w).world)
  {
    hide Exec, Unchanged, World.Valid;
    var looked := Exec(w, Read(RouteGet)).world;
    ExecReads(w, RouteGet);
    UnchangedValid(w, looked);
    ExecReads(looked, Ping);
    UnchangedTrans(w, looked, Exec(looked, Read(Ping)).world);
  }
}
