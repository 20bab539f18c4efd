/** Self-healing: once nothing fails without reason, two turns of the health loop bring everything back. */
module HealingLaws {
  import opened Options
  import opened Addresses
  import opened Kernel
  import opened Config
  import opened Backend
  import opened AddressLaws
  import opened LanLaws
  import opened TeardownLaws
  import opened Convergence
  import opened Feasibility
  import opened ObserveLaws
  import opened RepairLaws
  import opened PassLaws
  import opened Advertising
  import opened Daemon
  import opened StatusLaws
  import opened DaemonLaws
  import opened UpdateLaws
  import opened RunLaws

  // ---------------------------------------------------------------- configs that can be served

  /** With LAN disabled the route source may only be the tunnel's own address, or none. */
  predicate SourceStable(c: Config) {
    c.lan.enabled ||
    match SelectSource(c)
    case BadSource(_) => false
    case NoSource => true
    case Source(a) => c.tunnel.localIPv6.Parse().Some? && a == c.tunnel.localIPv6.Parse().value.addr
  }

  /** The config can work on these devices, whatever else is in the kernel. */
  ghost predicate Serviceable(n: Network, c: Config) {
    var wan := c.server.wanInterface;
    && wan != TUNNEL && wan in n.links && wan in n.wan4
    && 1 <= c.tunnel.ttl <= 255
    && TargetMTU(n, c).Some? && TUNNEL_MTU_MIN <= TargetMTU(n, c).value <= TUNNEL_MTU_MAX
    && c.tunnel.localIPv6.Parse().Some? && c.tunnel.localIPv6.Parse().value.addr.is6
    && (c.lan.enabled ==> AllUsable(n, c.lan.networks))
    && SourceStable(c)
  }

  lemma ServiceableWorks(n: Network, c: Config)
    requires Serviceable(n, c)
    ensures Workable(n, c)
  {
    hide AllUsable, SelectSource, Network.Assigned;
  }

  lemma ServiceableSame(n: Network, n': Network, c: Config)
    requires Serviceable(n, c) && LANOffTunnel(c)
    requires n'.links == n.links && n'.wan4 == n.wan4
    requires forall d :: d != TUNNEL ==> (d in n'.ipv6Off <==> d in n.ipv6Off)
    ensures Serviceable(n', c)
  {
    LanUsableSame(n, n', c);
    hide AllUsable, SourceStable, LANOffTunnel;
  }

  /** Where everything managed is usable, the devices are evidently fit. */
  lemma HealthyIsUsable(w: World, c: Config)
    requires w.Valid() && AllHealthy(w.kernel.net, c) && c.lan.enabled
    ensures AllUsable(w.kernel.net, c.lan.networks)
  {
    hide World.Valid, IsHealthy, GatewayOf, GatewayForPrefix;
    forall i | 0 <= i < |c.lan.networks|
      ensures Usable(w.kernel.net, c.lan.networks[i])
    {
      var nw := c.lan.networks[i];
      assert NetworkHealthy(w.kernel.net, nw);
      GatewayTextParses(nw.prefix);
      HealthyGatewayParses(w.kernel.net, nw.iface, GatewayForPrefix(nw.prefix).value);
      HealthyMeansOn(w, nw.iface, GatewayForPrefix(nw.prefix).value);
    }
  }

  lemma ServiceableAgain(w: World, w': World, c: Config)
    requires Serviceable(w.kernel.net, c) && Onward(w, w') && AllHealthy(w'.kernel.net, c)
    ensures Serviceable(w'.kernel.net, c)
  {
    hide World.Valid, World.Calm, AllUsable, SourceStable, AllHealthy;
    OnwardValidWorld(w, w');
    SameDevices(w, w');
    hide Onward;
    if c.lan.enabled {
      HealthyIsUsable(w', c);
    }
  }

  lemma OnwardValidWorld(w: World, w': World)
    requires Onward(w, w')
    ensures w'.Valid()
    ensures w.Calm() ==> w'.Calm()
  {
  }

  /** A config the daemon wants and can serve, and nothing failing from now on. */
  ghost predicate Fit(d: Daemon) {
    && Steady(d)
    && d.world.Calm()
    && Curable(d)
  }

  ghost predicate Curable(d: Daemon) {
    && ValidConfig(d.config) && d.config.tunnel.enabled && LANOffTunnel(d.config)
    && (Advertises(d.config) ==> Plan(d.config).Good?)
    && Serviceable(d.world.kernel.net, d.config)
  }

  lemma {:induction false} CurableElsewhere(d: Daemon, d': Daemon)
    requires Curable(d) && d'.config == d.config && Serviceable(d'.world.kernel.net, d.config)
    ensures Curable(d')
  {
    hide Serviceable, Plan, ValidConfig, LANOffTunnel;
  }

  lemma {:induction false} FitIntro(d: Daemon)
    requires Steady(d) && d.world.Calm() && Curable(d)
    ensures Fit(d)
  {
    hide Steady, World.Calm, Curable;
  }

  lemma {:induction false} FitParts(d: Daemon)
    requires Fit(d)
    ensures Steady(d) && d.world.Calm() && Curable(d) && d.world.Valid() && Sane(d) && Coupled(d)
    ensures ValidConfig(d.config) && d.config.tunnel.enabled && d.document.tunnelEnabled
  {
    hide Serviceable, Plan, ValidConfig, LANOffTunnel, World.Calm, World.Valid, Tracked, Sound, ActiveConfig,
         BuildApplied;
    SteadyParts(d);
  }

  /** Everything is as it should be. */
  ghost predicate Healed(d: Daemon) {
    d.state.phase == Ready && AllHealthy(d.world.kernel.net, d.config)
  }

  // ---------------------------------------------------------------- a reconcile heals

  lemma {:induction false} CalmPass(d: Daemon)
    requires Fit(d)
    ensures var p := RunPass(d.world, d.config, true, d.state.applied);
            !PassFailed(p) && p.observation.tunnelUp && AllHealthy(p.world.kernel.net, d.config)
  {
    hide ValidConfig, World.Calm, World.Valid, Tracked, Sound, ActiveConfig, AllHealthy, RunPass, LANOffTunnel, Plan,
         PassFailed;
    FitParts(d);
    var down := Teardown(d.world, d.state.applied);
    TeardownReduces(d.world, d.state.applied);
    ReducedValid(d.world, down);
    SameDevices(d.world, down);
    hide Onward, Teardown, Steady, Sane, Coupled;
    ServiceableSame(d.world.kernel.net, down.kernel.net, d.config);
    hide Serviceable, Workable;
    ServiceableWorks(down.kernel.net, d.config);
    CalmPassSucceeds(d.world, d.config, d.state.applied);
  }

  lemma CleanPassReady(d: Daemon, p: Pass)
    requires ValidConfig(d.config) && p.config.tunnel.enabled
    requires !PassFailed(p) && p.observation.tunnelUp
    ensures AfterPass(d, p).state.phase == Ready
    ensures PassFault(ConfigReasons(d.config), p).None?
  {
    ValidMeansNoReasons(d.config);
    hide ConfigReasons, PassTroubles, ActiveProfile, StuckItems;
  }

  /** A fit daemon's reconcile succeeds and makes it ready, from any state of the service and of the
      kernel. */
  lemma {:induction false} ReconcileHeals(d: Daemon)
    requires Fit(d)
    ensures var r := ReconcileLocked(d); r.err.None? && Healed(r.daemon) && Fit(r.daemon)
  {
    hide ValidConfig, World.Calm, World.Valid, Tracked, Sound, ActiveConfig, AllHealthy, RunPass, Serviceable,
         PassFailed, Onward, Steady, Curable, Sane, AfterPass, PassFault, ConfigReasons, Fit, Coupled;
    FitParts(d);
    CalmPass(d);
    ValidMeansNoReasons(d.config);
    var p := RunPass(d.world, d.config, true, d.state.applied);
    var a := AfterPass(d, p);
    PassKeeps(d.world, d.config, true, d.state.applied);
    CleanPassReady(d, p);
    OnwardValidWorld(d.world, p.world);
    AfterPassWorld(d, p);
    ReconcileSteadies(d);
    var r := ReconcileLocked(d);
    OnwardValidWorld(d.world, r.daemon.world);
    CalmDoesNotFail(p.world);
    SaveStateKeeps(a);
    UnchangedOwned(a.world, r.daemon.world);
    ServiceableAgain(d.world, r.daemon.world, d.config) by {
      CurableServiceable(d);
    }
    CurableElsewhere(d, r.daemon);
    FitIntro(r.daemon);
  }

  lemma {:induction false} CurableServiceable(d: Daemon)
    requires Curable(d)
    ensures Serviceable(d.world.kernel.net, d.config) && LANOffTunnel(d.config)
  {
    hide Serviceable, Plan, ValidConfig, LANOffTunnel;
  }

  lemma AfterPassWorld(d: Daemon, p: Pass)
    ensures AfterPass(d, p).world == p.world && AfterPass(d, p).config == d.config
  {
    hide StateAfter, StuckItems;
  }

  lemma CalmDoesNotFail(w: World)
    requires w.Calm()
    ensures !Fails(w)
  {
  }

  // ---------------------------------------------------------------- a health check

  /** What a health check of the current config sees. */
  lemma {:induction false} LookSees(d: Daemon)
    requires Fit(d)
    ensures var s := Look(d.world, d.config);
            && Unchanged(d.world, s.world)
            && s.sight.config == d.config
            && (s.sight.observeErr.None? ==> (s.sight.observation.missing == [] <==> AllHealthy(d.world.kernel.net, d.config)))
            && (AllHealthy(d.world.kernel.net, d.config) ==> s.sight.observeErr.None?)
  {
    hide ValidConfig, World.Calm, World.Valid, AllHealthy, Observe, Fit, Curable, Steady, Sane, Coupled, Unchanged,
         Probes, Probe;
    FitParts(d);
    var o := ObserveFor(d.world, d.config, true);
    ObserveForUnchanged(d.world, d.config, true);
    UnchangedValid(d.world, o.world);
    ProbeUnchanged(Probes(d.config), o.world);
    UnchangedTrans(d.world, o.world, ProbeIf(Probes(d.config), o.world).world);
    if o.err.None? {
      ObserveVerdict(d.world, d.config.server.wanInterface, d.config);
    }
    if AllHealthy(d.world.kernel.net, d.config) {
      HealthyIsObserved(d.world, d.config.server.wanInterface, d.config);
    }
  }

  lemma {:induction false} FitElsewhere(d: Daemon, d': Daemon)
    requires Fit(d) && Steady(d') && d'.config == d.config
    requires Onward(d.world, d'.world)
    requires forall i :: i != TUNNEL ==> (i in d'.world.kernel.net.ipv6Off <==> i in d.world.kernel.net.ipv6Off)
    ensures Fit(d')
  {
    hide ValidConfig, World.Calm, World.Valid, Steady, Sane, Coupled, Serviceable, Plan, LANOffTunnel, SameSurroundings;
    FitParts(d);
    OnwardValidWorld(d.world, d'.world);
    SameDevices(d.world, d'.world);
    hide Onward;
    ServiceableSame(d.world.kernel.net, d'.world.kernel.net, d.config);
  }

  /** Both sections of a health check, before any recovery. */
  function CheckOnly(d: Daemon): Result {
    var seen := Look(d.world, d.config);
    WriteBack(d.(world := seen.world), seen.sight)
  }

  lemma SteadyWith(d: Daemon, w: World)
    requires Steady(d) && Unchanged(d.world, w)
    ensures Steady(d.(world := w))
  {
    hide World.Valid, Tracked, Sound, Coupled, Steady;
    SteadyParts(d);
    UnchangedOwned(d.world, w);
    var e := d.(world := w);
    CoupledSame(d, e);
    TrackedSame(d, e);
    SteadyIntro(e);
  }

  lemma {:induction false} CheckKeepsFit(d: Daemon)
    requires Fit(d)
    ensures var s := CheckOnly(d); var sight := Look(d.world, d.config).sight;
            && s.err.None? && Fit(s.daemon) && s.daemon.config == d.config
            && s.daemon.world.kernel == d.world.kernel
            && s.daemon.state == StateAfterSight(d.state, sight)
  {
    hide Look, Steady, Fit, World.Valid, World.Calm, Unchanged, StateAfterSight, WriteBack;
    FitParts(d);
    LookSees(d);
    var seen := Look(d.world, d.config);
    var e := d.(world := seen.world);
    SteadyWith(d, seen.world);
    UnchangedValid(d.world, seen.world);
    CalmDoesNotFail(seen.world);
    WriteBackSteadies(e, seen.sight);
    WriteBackSaves(e, seen.sight);
    var s := WriteBack(e, seen.sight);
    UnchangedTrans(d.world, e.world, s.daemon.world);
    UnchangedOwned(d.world, s.daemon.world);
    UnchangedOnwardOnly(d.world, s.daemon.world);
    FitElsewhere(d, s.daemon);
  }

  lemma UnchangedOnwardOnly(w: World, w': World)
    requires Unchanged(w, w')
    ensures Onward(w, w')
  {
  }

  lemma WriteBackSaves(d: Daemon, s: Sight)
    requires !Fails(d.world)
    ensures WriteBack(d, s).err.None?
  {
    hide StateAfterSight;
  }

  /** A repair, whether it succeeds or not, leaves the daemon fit; if the service calls itself ready
      afterwards although it was not before, every managed address is usable. */
  lemma {:induction false} RepairKeepsFit(d: Daemon)
    requires Fit(d) && d.state.phase != Ready
    ensures var r := Repair(d);
            && Fit(r.daemon)
            && (r.daemon.state.phase == Ready ==> AllHealthy(r.daemon.world.kernel.net, r.daemon.config))
  {
    hide World.Valid, World.Calm, RepairAddresses, Observe, Steady, Fit, Curable, Coupled, Sane, ValidConfig, Unchanged,
         Onward, AllHealthy, ManagedKeys, ReplaceMissing, AddFault, SaveState, AddressesOnly;
    FitParts(d);
    RepairSteadies(d);
    var r := RepairAddresses(d.world, d.config);
    var o := Observe(r.world, d.config.server.wanInterface, Some(d.config));
    RepairFrames(d.world, d.config);
    AddressesOnlySwitches(d.world, r.world, ManagedKeys(d.config));
    RepairWorldKeeps(d);
    UnchangedOwned(r.world, o.world);
    var e := Pruned(d.(world := o.world, state := StateAfterRepair(d.state, r.err, o)));
    hide Lost;
    SaveStateKeeps(e);
    UnchangedOwned(e.world, SaveState(e).daemon.world);
    FitElsewhere(d, Repair(d).daemon);
    if Repair(d).daemon.state.phase == Ready {
      ObserveVerdict(r.world, d.config.server.wanInterface, d.config);
    }
  }

  lemma AddressesOnlySwitches(w: World, w': World, s: iset<Key>)
    requires AddressesOnly(w, w', s)
    ensures w'.kernel.net.ipv6Off == w.kernel.net.ipv6Off && w'.Valid() && Onward(w, w')
  {
  }

  // ---------------------------------------------------------------- the health loop

  /** After one turn: healed, or known to be not ready. */
  ghost predicate Halfway(d: Daemon) {
    Fit(d) && (Healed(d) || d.state.phase != Ready)
  }

  lemma {:induction false} RecoverHelps(d: Daemon, s: Sight)
    requires Fit(d) && s.config == d.config
    requires d.state.phase == Ready ==> AllHealthy(d.world.kernel.net, d.config) && s.observation.missing == []
    ensures Halfway(Recover(d, s).daemon)
    ensures Healed(d) && s.observation.missing == [] ==> Healed(Recover(d, s).daemon)
  {
    hide Fit, AllHealthy, ReconcileLocked, Repair, ValidConfig;
    if s.config.health.autoRestart && s.config.tunnel.enabled && ValidConfig(s.config) {
      if s.config.health.enabled && !s.probe.pingOk {
        ReconcileHeals(d);
      } else if s.observation.missing != [] {
        RepairKeepsFit(d);
        if Repair(d).err.Some? {
          ReconcileHeals(Repair(d).daemon);
        }
      }
    }
  }

  lemma {:induction false} CheckHelps(d: Daemon)
    requires Fit(d)
    ensures Halfway(HealthCheck(d, true).daemon)
    ensures Healed(d) ==> Healed(HealthCheck(d, true).daemon)
  {
    hide Fit, AllHealthy, Recover, Look, WriteBack, SightTroubles;
    var s := CheckOnly(d);
    var sight := Look(d.world, d.config).sight;
    CheckKeepsFit(d);
    LookSees(d);
    SameKernelHealthy(d, s.daemon);
    RecoverHelps(s.daemon, sight);
  }

  lemma SameKernelHealthy(d: Daemon, d': Daemon)
    requires d'.world.kernel == d.world.kernel && d'.config == d.config
    ensures AllHealthy(d'.world.kernel.net, d'.config) <==> AllHealthy(d.world.kernel.net, d.config)
  {
  }

  /** One turn of the loop brings a daemon half-way; from there, one turn heals it; and once healed it
      stays healed. */
  lemma {:induction false} TickHelps(d: Daemon)
    requires Fit(d)
    ensures Halfway(Tick(d))
    ensures Healed(d) || d.state.phase != Ready ==> Healed(Tick(d))
  {
    hide Fit, AllHealthy, ReconcileLocked, HealthCheck, ValidConfig;
    FitParts(d);
    if ShouldRetry(d) {
      ReconcileHeals(d);
    } else {
      CheckHelps(d);
    }
  }

  function Ticks(d: Daemon, count: nat): Daemon
    decreases count
  {
    if count == 0 then d else Ticks(Tick(d), count - 1)
  }

  lemma {:induction false} StaysHealed(d: Daemon, count: nat)
    requires Fit(d) && Healed(d)
    ensures Healed(Ticks(d, count)) && Fit(Ticks(d, count))
    decreases count
  {
    hide Fit, Healed, Tick;
    if count > 0 {
      TickHelps(d);
      HalfwayFit(Tick(d));
      StaysHealed(Tick(d), count - 1);
    }
  }

  lemma {:induction false} HalfwayFit(d: Daemon)
    requires Halfway(d)
    ensures Fit(d) && (Healed(d) || d.state.phase != Ready)
  {
    hide Fit, Healed;
  }

  /** Self-healing. After any run whatsoever, if from then on no command, disk write or start of the
      advertiser fails without reason and the config is one the devices can serve, then after two turns
      of the health loop the service is ready and every managed address usable, whatever the probe says
      and whether or not automatic restart is on; and so it stays. */
  lemma {:induction false} TwoTicksHeal(d: Daemon, es: seq<Event>, count: nat)
    requires Steady(d) && forall e <- es :: Possible(e)
    requires Play(d, es).world.Calm() && Curable(Play(d, es))
    ensures count >= 2 ==> Healed(Ticks(Play(d, es), count))
  {
    hide Steady, Fit, Healed, Tick, Play, Possible, Curable, World.Calm, Halfway;
    AlwaysSteady(d, es);
    var e := Play(d, es);
    FitIntro(e);
    if count >= 2 {
      TickHelps(e);
      HalfwayFit(Tick(e));
      TickHelps(Tick(e));
      HalfwayFit(Tick(Tick(e)));
      StaysHealed(Tick(Tick(e)), count - 2);
    }
  }
}
