/** Bringing up the tunnel device and the route to its endpoint. */
module LinkLaws {
  import opened Options
  import opened Kernel
  import opened Config
  import opened Backend
  import opened AddressLaws
  import opened TeardownLaws

  // ---------------------------------------------------------------- the tunnel device

  lemma RunAllStep(w: World, c: Command, rest: seq<Command>)
    ensures RunAll(w, [c] + rest) == if Run(w, c).err.None? then RunAll(Run(w, c).world, rest) else Run(w, c)
  {
    hide Exec;
    assert ([c] + rest)[1..] == rest;
  }

  lemma {:induction false} RunOnward(w: World, c: Command)
    requires w.Valid()
    ensures Onward(w, Run(w, c).world)
    ensures Run(w, c).world.owned <= w.owned + Creates(c)
    ensures Run(w, c).err.Some? ==> Run(w, c).world.kernel == w.kernel
  {
    ExecKeeps(w, c);
    hide World.Valid, World.Calm, SameSurroundings, Effect, Present, Creates;
  }

  /** What bringing up the link may change: the tunnel device with its own addresses and switches,
      and the route to the endpoint. */
  ghost predicate OnlyLink(k: Kernel, k': Kernel, endpoint: string) {
    && k'.fw == k.fw
    && k'.net == k.net.(addrs := k'.net.addrs, dadOff := k'.net.dadOff, ipv6Off := k'.net.ipv6Off,
                        tunnel := k'.net.tunnel, routes := k'.net.routes)
    && (forall key: Key :: key.0 != TUNNEL ==> SameEntry(k.net.addrs, k'.net.addrs, key))
    && (forall d :: d != TUNNEL ==> (d in k'.net.ipv6Off <==> d in k.net.ipv6Off) && (d in k'.net.dadOff <==> d in k.net.dadOff))
    && (forall e :: e != endpoint ==> (e in k'.net.routes <==> e in k.net.routes) && (e in k.net.routes ==> k'.net.routes[e] == k.net.routes[e]))
  }

  lemma OnlyLinkTrans(a: Kernel, b: Kernel, c: Kernel, e: string)
    requires OnlyLink(a, b, e) && OnlyLink(b, c, e)
    ensures OnlyLink(a, c, e)
  {
    forall key: Key | key.0 != TUNNEL
      ensures SameEntry(a.net.addrs, c.net.addrs, key)
    {
      assert SameEntry(a.net.addrs, b.net.addrs, key) && SameEntry(b.net.addrs, c.net.addrs, key);
    }
  }

  lemma OnlyLinkRefl(k: Kernel, e: string)
    ensures OnlyLink(k, k, e)
  {
  }

  /** The commands that bring up the link. */
  predicate IsLinkCommand(cmd: Command, c: Config) {
    match cmd
    case Tunnel(t) => !t.TunnelDel?
    case Routing(r) => r.RouteReplace? && r.endpoint == c.tunnel.remoteEndpoint && r.dev == c.server.wanInterface
    case Read(_) => true
    case _ => false
  }

  lemma TunnelCommandOnlyLink(k: Kernel, t: TunnelCommand, e: string, f: Fate)
    requires TunnelEffect(k.net, t, f).Some? && !t.TunnelDel?
    ensures OnlyLink(k, k.(net := TunnelEffect(k.net, t, f).value), e)
  {
  }

  lemma RouteReplaceOnlyLink(k: Kernel, r: RouteCommand, e: string)
    requires RouteEffect(k.net, r).Some? && r.RouteReplace? && r.endpoint == e
    ensures OnlyLink(k, k.(net := RouteEffect(k.net, r).value), e)
  {
  }

  lemma RunOnlyLink(w: World, cmd: Command, c: Config)
    requires IsLinkCommand(cmd, c)
    ensures OnlyLink(w.kernel, Run(w, cmd).world.kernel, c.tunnel.remoteEndpoint)
  {
    var e := c.tunnel.remoteEndpoint;
    var f := w.fate(w.now);
    OnlyLinkRefl(w.kernel, e);
    if Effect(w.kernel, cmd, f).Some? {
      if cmd.Tunnel? {
        TunnelCommandOnlyLink(w.kernel, cmd.tunnel, e, f);
      } else if cmd.Routing? {
        RouteReplaceOnlyLink(w.kernel, cmd.route, e);
      }
    }
    hide OnlyLink, Present, Creates, TunnelEffect, RouteEffect;
  }

  /** The device as configured. */
  function DeviceOf(c: Config, wan4: string): TunnelDevice {
    TunnelDevice(c.tunnel.remoteEndpoint, wan4, c.tunnel.ttl, c.tunnel.mtu, true)
  }

  ghost predicate LinkIsUp(n: Network, c: Config, wan4: string) {
    && n.tunnel == Some(DeviceOf(c, wan4))
    && c.tunnel.remoteEndpoint in n.routes
    && n.routes[c.tunnel.remoteEndpoint] == Route(c.server.wanInterface, wan4)
    && TUNNEL !in n.ipv6Off
    && 1 <= c.tunnel.ttl <= 255
    && TUNNEL_MTU_MIN <= c.tunnel.mtu <= TUNNEL_MTU_MAX
  }

  lemma RouteStep(w: World, c: Config, wan4: string)
    ensures var o := Run(w, Routing(RouteReplace(c.tunnel.remoteEndpoint, c.server.wanInterface, wan4))); var n := o.world.kernel.net;
            o.err.None? ==>
              && c.tunnel.remoteEndpoint in n.routes
              && n.routes[c.tunnel.remoteEndpoint] == Route(c.server.wanInterface, wan4)
              && n.tunnel == w.kernel.net.tunnel
    ensures w.Calm() ==> (Run(w, Routing(RouteReplace(c.tunnel.remoteEndpoint, c.server.wanInterface, wan4))).err.None?
                          <==> w.kernel.net.HasDevice(c.server.wanInterface))
  {
  }

  lemma AddStep(w: World, remote: string, local: string, ttl: int)
    ensures var o := Run(w, Tunnel(TunnelAdd(remote, local, ttl))); var n := o.world.kernel.net;
            o.err.None? ==>
              && n.tunnel == Some(TunnelDevice(remote, local, ttl, TUNNEL_DEFAULT_MTU, false))
              && n.routes == w.kernel.net.routes
              && TUNNEL !in n.ipv6Off
              && 1 <= ttl <= 255
              && w.kernel.net.tunnel.None?
    ensures w.Calm() ==> (Run(w, Tunnel(TunnelAdd(remote, local, ttl))).err.None? <==> w.kernel.net.tunnel.None? && 1 <= ttl <= 255)
  {
  }

  lemma MtuStep(w: World, mtu: int)
    ensures var o := Run(w, Tunnel(LinkSetMtu(mtu))); var n := o.world.kernel.net;
            o.err.None? ==>
              && w.kernel.net.tunnel.Some?
              && n == w.kernel.net.(tunnel := Some(w.kernel.net.tunnel.value.(mtu := mtu)))
              && TUNNEL_MTU_MIN <= mtu <= TUNNEL_MTU_MAX
    ensures w.Calm() ==> (Run(w, Tunnel(LinkSetMtu(mtu))).err.None? <==> w.kernel.net.tunnel.Some? && TUNNEL_MTU_MIN <= mtu <= TUNNEL_MTU_MAX)
  {
  }

  lemma UpStep(w: World)
    ensures var o := Run(w, Tunnel(LinkSetUp)); var n := o.world.kernel.net;
            o.err.None? ==>
              && w.kernel.net.tunnel.Some?
              && n.tunnel == Some(w.kernel.net.tunnel.value.(up := true))
              && n.routes == w.kernel.net.routes
              && n.ipv6Off == w.kernel.net.ipv6Off
    ensures w.Calm() ==> (Run(w, Tunnel(LinkSetUp)).err.None? <==> w.kernel.net.tunnel.Some?)
  {
  }

  /** When the link comes up, nothing failing without reason. */
  predicate LinkPossible(n: Network, c: Config) {
    && n.HasDevice(c.server.wanInterface)
    && n.tunnel.None?
    && 1 <= c.tunnel.ttl <= 255
    && TUNNEL_MTU_MIN <= c.tunnel.mtu <= TUNNEL_MTU_MAX
  }

  /** The outcome of one stage: consistent, confined, and owning at most the endpoint route more. */
  ghost predicate LinkFrame(w: World, c: Config, w': World) {
    && Onward(w, w')
    && OnlyLink(w.kernel, w'.kernel, c.tunnel.remoteEndpoint)
    && w'.owned <= w.owned + {EndpointRoute(c.server.wanInterface, c.tunnel.remoteEndpoint)}
  }

  lemma LinkFrameTrans(a: World, c: Config, b: World, d: World)
    requires LinkFrame(a, c, b) && LinkFrame(b, c, d)
    ensures LinkFrame(a, c, d)
  {
    OnwardTrans(a, b, d);
    OnlyLinkTrans(a.kernel, b.kernel, d.kernel, c.tunnel.remoteEndpoint);
    hide Onward, OnlyLink;
  }

  lemma {:induction false} LinkStepFrame(w: World, c: Config, cmd: Command)
    requires w.Valid()
    requires IsLinkCommand(cmd, c)
    ensures LinkFrame(w, c, Run(w, cmd).world)
  {
    RunOnward(w, cmd);
    RunOnlyLink(w, cmd, c);
    hide Onward, OnlyLink, Run, World.Valid;
  }

  lemma LinkFrameValid(w: World, c: Config, w': World)
    requires LinkFrame(w, c, w')
    ensures w'.Valid() && Onward(w, w')
  {
  }

  /** Confined also when it fails half-way. */
  lemma {:induction false} LinkScriptFrame(w: World, c: Config, cs: seq<Command>)
    requires w.Valid()
    requires forall cmd <- cs :: IsLinkCommand(cmd, c)
    ensures LinkFrame(w, c, RunAll(w, cs).world)
    decreases |cs|
  {
    hide LinkFrame, World.Valid, Run;
    if cs == [] {
      LinkFrameRefl(w, c);
    } else {
      var o := Run(w, cs[0]);
      LinkStepFrame(w, c, cs[0]);
      LinkFrameValid(w, c, o.world);
      if o.err.None? {
        LinkScriptFrame(o.world, c, cs[1..]);
        LinkFrameTrans(w, c, o.world, RunAll(w, cs).world);
      }
    }
  }

  lemma LinkFrameRefl(w: World, c: Config)
    requires w.Valid()
    ensures LinkFrame(w, c, w)
  {
    OnlyLinkRefl(w.kernel, c.tunnel.remoteEndpoint);
    hide OnlyLink, World.Valid, World.Calm;
  }

  lemma ModprobeFrame(w: World)
    requires w.Valid()
    ensures var w1 := BestEffort(w, [Read(Modprobe)]); Onward(w, w1) && w1.kernel == w.kernel && w1.owned == w.owned
  {
    BestEffortOne(w, Read(Modprobe));
    ExecOnward(w, Read(Modprobe));
    ReadLeavesKernel(w, Modprobe);
    hide Exec, BestEffort, Onward, World.Valid;
  }

  lemma BringUpLinkFrame(w: World, c: Config, wan4: string)
    requires w.Valid()
    ensures LinkFrame(w, c, BringUpLink(w, c, wan4).world)
  {
    var w1 := BestEffort(w, [Read(Modprobe)]);
    ModprobeFrame(w);
    OnlyLinkRefl(w.kernel, c.tunnel.remoteEndpoint);
    hide BestEffort, World.Valid, RunAll, OnlyLink;
    assert Onward(w, w1);
    hide Onward;
    OnwardValid(w, w1);
    LinkScriptFrame(w1, c, LinkScript(c, wan4));
    assert LinkFrame(w, c, w1);
    hide LinkFrame;
    LinkFrameTrans(w, c, w1, BringUpLink(w, c, wan4).world);
  }

  lemma OnwardValid(w: World, w': World)
    requires Onward(w, w')
    ensures w'.Valid()
    ensures w.Calm() ==> w'.Calm()
  {
  }

  /** The link comes up as configured, and without spurious failures it does so exactly when it can. */
  lemma BringUpLinkEstablishes(w: World, c: Config, wan4: string)
    requires w.Valid()
    ensures var o := BringUpLink(w, c, wan4);
            && (o.err.None? ==> LinkIsUp(o.world.kernel.net, c, wan4))
            && (w.Calm() ==> (o.err.None? <==> LinkPossible(w.kernel.net, c)))
  {
    var w0 := BestEffort(w, [Read(Modprobe)]);
    ModprobeFrame(w);
    OnwardValid(w, w0);
    var r := Routing(RouteReplace(c.tunnel.remoteEndpoint, c.server.wanInterface, wan4));
    var a, m, u := Tunnel(TunnelAdd(c.tunnel.remoteEndpoint, wan4, c.tunnel.ttl)), Tunnel(LinkSetMtu(c.tunnel.mtu)), Tunnel(LinkSetUp);
    assert LinkScript(c, wan4) == [r] + ([a] + ([m] + [u]));
    hide BestEffort, RunAll, World.Valid, World.Calm, Run, Onward, SameSurroundings, OnlyLink;
    RunAllStep(w0, r, [a] + ([m] + [u]));
    RouteStep(w0, c, wan4);
    var w1 := Run(w0, r).world;
    RunOnward(w0, r);
    OnwardValid(w0, w1);
    RunAllStep(w1, a, [m] + [u]);
    AddStep(w1, c.tunnel.remoteEndpoint, wan4, c.tunnel.ttl);
    var w2 := Run(w1, a).world;
    RunOnward(w1, a);
    OnwardValid(w1, w2);
    RunAllStep(w2, m, [u]);
    MtuStep(w2, c.tunnel.mtu);
    var w3 := Run(w2, m).world;
    RunOnward(w2, m);
    OnwardValid(w2, w3);
    RunOne(w3, u);
    UpStep(w3);
  }
}
