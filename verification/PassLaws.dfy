/** One reconcile as the service runs it: data plane, advertiser, observation and probe together. */
module PassLaws {
  import opened Kernel
  import opened Config
  import opened ConfigLaws
  import opened Backend
  import opened AddressLaws
  import opened LanLaws
  import opened TeardownLaws
  import opened LinkLaws
  import opened ReconcileLaws
  import opened Convergence
  import opened Feasibility
  import opened ObserveLaws
  import opened Advertising
  import opened Daemon

  lemma WaitUnchanged(w: World)
    requires w.Valid()
    ensures Unchanged(w, Wait(w))
  {
    hide Present;
  }

  lemma StartUnchanged(on: bool, w: World, c: Config)
    requires w.Valid()
    ensures var s := StartIf(on, w, c);
            && Unchanged(w, s.world)
            && (s.advertiser.Some? ==> on && s.err.None? && Plan(c).Good? && s.advertiser.value == Plan(c).value)
            && (on && s.err.None? ==> s.advertiser.Some?)
            && (w.Calm() ==> (s.err.None? <==> !on || Plan(c).Good?))
  {
    WaitUnchanged(w);
    UnchangedRefl(w);
    hide Plan, Unchanged, World.Valid;
  }

  lemma ProbeUnchanged(on: bool, w: World)
    requires w.Valid()
    ensures Unchanged(w, ProbeIf(on, w).world)
  {
    ProbeReads(w);
    UnchangedRefl(w);
    hide Unchanged, Probe, World.Valid;
  }

  /** Observing for a config: exact when there is something to check. */
  lemma {:induction false} ObserveForUnchanged(w: World, c: Config, valid: bool)
    requires w.Valid()
    ensures Unchanged(w, ObserveFor(w, c, valid).world)
    ensures !Wanted(c, valid) ==> ObserveFor(w, c, valid).err.None? && ObserveFor(w, c, valid).observation.missing == []
  {
    if Wanted(c, valid) {
      ObserveExact(w, c.server.wanInterface, c);
    } else {
      ObserveNothing(w, c.server.wanInterface);
    }
    hide Observe, Unchanged, World.Valid, Manages, Reports, CanObserve;
  }

  /** The parts of a pass in order, each on the world the one before left. */
  lemma {:induction false} PassSteps(w: World, c: Config, valid: bool, applied: AppliedState)
    requires w.Valid()
    ensures var r := Reconcile(w, c, valid, applied); var p := RunPass(w, c, valid, applied);
            var a := StartIf(r.err.None? && Wanted(r.config, valid) && Advertises(r.config), r.world, r.config);
            && Onward(w, r.world)
            && Unchanged(r.world, a.world)
            && Unchanged(a.world, ObserveFor(a.world, r.config, valid).world)
            && Unchanged(r.world, p.world)
            && r.config == WithMTU(c, r.config.tunnel.mtu)
  {
    hide World.Valid, Unchanged, Reconcile, StartIf, ObserveFor, ProbeIf, Onward;
    var r := Reconcile(w, c, valid, applied);
    ReconcileOnward(w, c, valid, applied);
    OnwardValid(w, r.world);
    var on := r.err.None? && Wanted(r.config, valid) && Advertises(r.config);
    var a := StartIf(on, r.world, r.config);
    StartUnchanged(on, r.world, r.config);
    UnchangedValid(r.world, a.world);
    var o := ObserveFor(a.world, r.config, valid);
    ObserveForUnchanged(a.world, r.config, valid);
    UnchangedValid(a.world, o.world);
    var q := Wanted(r.config, valid) && Probes(r.config);
    ProbeUnchanged(q, o.world);
    UnchangedTrans(r.world, a.world, o.world);
    UnchangedTrans(r.world, o.world, ProbeIf(q, o.world).world);
  }

  /** What a pass does to the world is what its reconcile does. */
  lemma {:induction false} PassKeeps(w: World, c: Config, valid: bool, applied: AppliedState)
    requires w.Valid()
    ensures var r := Reconcile(w, c, valid, applied); var p := RunPass(w, c, valid, applied);
            && Onward(w, p.world)
            && p.world.kernel == r.world.kernel
            && p.world.owned == r.world.owned
            && p.backendErr == r.err
            && p.config == r.config == WithMTU(c, r.config.tunnel.mtu)
  {
    PassSteps(w, c, valid, applied);
    hide World.Valid, Reconcile, StartIf, ObserveFor, ProbeIf, Wanted, Advertises, Probes;
    UnchangedOnward(w, Reconcile(w, c, valid, applied).world, RunPass(w, c, valid, applied).world);
    hide Onward;
  }

  lemma UnchangedOnward(a: World, b: World, c: World)
    requires Onward(a, b) && Unchanged(b, c)
    ensures Onward(a, c)
  {
    OnwardTrans(a, b, c);
    hide Onward;
  }

  lemma ValidHasEnds(c: Config)
    requires ValidConfig(c) && c.tunnel.enabled
    ensures c.tunnel.remoteEndpoint != "" && c.server.wanInterface != ""
  {
    ValidConfigIff(c);
    DottedQuadIsNotBlank(c.tunnel.remoteEndpoint);
    hide IsIPv4, ValidConfig;
  }

  /** Ownership over a pass. */
  lemma {:induction false} PassOwns(w: World, c: Config, applied: AppliedState, item: Item)
    requires w.Valid() && item in RunPass(w, c, ValidConfig(c), applied).world.owned
    ensures (ValidConfig(c) && c.tunnel.enabled && InFootprint(item, BuildApplied(c))) || item in Teardown(w, applied).owned
  {
    PassKeeps(w, c, ValidConfig(c), applied);
    hide World.Valid, RunPass, Reconcile, ValidConfig, InFootprint, BuildApplied, Teardown, Onward;
    if ValidConfig(c) && c.tunnel.enabled {
      ValidHasEnds(c);
    }
    ReconcileOwns(w, c, ValidConfig(c), applied, item);
  }

  /** A pass that finds nothing to complain about left every managed address usable. */
  lemma {:induction false} PassVerdict(w: World, c: Config, applied: AppliedState)
    requires w.Valid() && c.tunnel.enabled
    requires var p := RunPass(w, c, true, applied); p.observeErr.None? && p.observation.missing == []
    ensures AllHealthy(RunPass(w, c, true, applied).world.kernel.net, c)
  {
    var r := Reconcile(w, c, true, applied);
    var a := StartIf(r.err.None? && Wanted(r.config, true) && Advertises(r.config), r.world, r.config);
    PassSteps(w, c, true, applied);
    hide World.Valid, Reconcile, StartIf, ProbeIf, Observe, Onward, AllHealthy, Advertises, Probes;
    UnchangedValid(r.world, a.world);
    UnchangedValid(r.world, RunPass(w, c, true, applied).world);
    ObserveVerdict(a.world, r.config.server.wanInterface, r.config);
    HealthyIgnoresMTU(a.world.kernel.net, c, r.config.tunnel.mtu);
  }

  lemma HealthyIgnoresMTU(n: Network, c: Config, mtu: int)
    ensures AllHealthy(n, WithMTU(c, mtu)) <==> AllHealthy(n, c)
  {
    hide IsHealthy, NetworkHealthy;
  }

  /** Once nothing fails without reason, a workable config whose advertisements can be built passes
      without complaint: the tunnel is seen up and every managed address is usable. */
  lemma {:induction false} CalmPassSucceeds(w: World, c: Config, applied: AppliedState)
    requires w.Valid() && w.Calm() && c.tunnel.enabled && LANOffTunnel(c)
    requires Workable(Teardown(w, applied).kernel.net, c)
    requires Advertises(c) ==> Plan(c).Good?
    ensures var p := RunPass(w, c, true, applied);
            !PassFailed(p) && p.observation.tunnelUp && AllHealthy(p.world.kernel.net, c)
  {
    var r := Reconcile(w, c, true, applied);
    ReconcileSucceedsIff(w, c, applied);
    hide Workable;
    ReconcileConverges(w, c, applied);
    PassSteps(w, c, true, applied);
    hide World.Valid, World.Calm, Reconcile, ProbeIf, Observe, Onward, Plan, LANOffTunnel, LinkIsUp, SelectSource,
         Probes;
    assert AllHealthy(r.world.kernel.net, r.config);
    hide Reached, Converged, AllHealthy;
    var on := r.err.None? && Wanted(r.config, true) && Advertises(r.config);
    PassWorldCalm(w, r.world);
    StartUnchanged(on, r.world, r.config);
    PlanIgnoresMTU(c, r.config.tunnel.mtu);
    var a := StartIf(on, r.world, r.config);
    UnchangedValid(r.world, a.world);
    UnchangedValid(r.world, RunPass(w, c, true, applied).world);
    HealthyIsObserved(a.world, r.config.server.wanInterface, r.config);
    HealthyIgnoresMTU(a.world.kernel.net, c, r.config.tunnel.mtu);
    hide StartIf;
  }

  lemma PassWorldCalm(w: World, w': World)
    requires Onward(w, w') && w.Calm()
    ensures w'.Valid() && w'.Calm()
  {
  }

  lemma PlanIgnoresMTU(c: Config, mtu: int)
    ensures Plan(WithMTU(c, mtu)).Good? <==> Plan(c).Good?
  {
    PlanGoodIff(c);
    PlanGoodIff(WithMTU(c, mtu));
    hide Plan;
  }
}
