/** What every locked section of the service keeps: memory coupled, the status sound, and everything
    the daemon installed accounted for. */
module DaemonLaws {
  import opened Options
  import opened Kernel
  import opened Config
  import opened ConfigLaws
  import opened Backend
  import opened AddressLaws
  import opened TeardownLaws
  import opened ReconcileLaws
  import opened ObserveLaws
  import opened PassLaws
  import opened Daemon
  import opened StatusLaws

  // ---------------------------------------------------------------- invariants

  /** The config is the document's; this holds from the moment the daemon is loaded. */
  predicate Loaded(d: Daemon) {
    ActiveConfig(d.document) == Some(d.config)
  }

  /** What the state says was asked for, judged and applied agrees with the config. */
  predicate Coupled(d: Daemon) {
    && Loaded(d)
    && d.state.desiredEnabled == d.document.tunnelEnabled == d.config.tunnel.enabled
    && d.state.configValid == ValidConfig(d.config)
    && (!d.config.tunnel.enabled ==> d.state.applied == NOTHING_APPLIED)
    && (d.config.tunnel.enabled && ValidConfig(d.config) ==> d.state.applied == BuildApplied(d.config))
  }

  /** Everything the daemon installed and that is still there is accounted for, exactly: either it lies
      in the recorded footprint, or a teardown tried to delete it and failed, or the state that recorded
      it was dropped; and nothing else is kept on the two lists. */
  ghost predicate Tracked(d: Daemon) {
    forall item: Item :: item in d.stuck || item in d.dropped <==> Lost(d, item)
  }

  /** Fit to be reconciled. */
  ghost predicate Sane(d: Daemon) {
    d.world.Valid() && Loaded(d) && Tracked(d)
  }

  /** Holds at every release of the lock after the first reconcile. */
  ghost predicate Steady(d: Daemon) {
    d.world.Valid() && Coupled(d) && Tracked(d) && Sound(d.state)
  }

  lemma SaneParts(d: Daemon)
    requires Sane(d)
    ensures d.world.Valid() && Loaded(d) && Tracked(d)
  {
    hide World.Valid, Loaded, Tracked;
  }

  lemma PrunedTracked(d: Daemon)
    requires forall item: Item :: Lost(d, item) ==> item in d.stuck || item in d.dropped
    ensures Tracked(Pruned(d))
  {
    hide InFootprint;
    forall item: Item
      ensures Lost(Pruned(d), item) <==> Lost(d, item)
    {
    }
  }

  // ---------------------------------------------------------------- disk writes

  lemma SaveStateKeeps(d: Daemon)
    requires d.world.Valid()
    ensures var s := SaveState(d);
            && s.daemon == d.(world := s.daemon.world, stateFile := s.daemon.stateFile)
            && Unchanged(d.world, s.daemon.world)
            && (s.err.None? <==> !Fails(d.world))
            && s.daemon.stateFile == (if s.err.None? then d.state else d.stateFile)
            && s.daemon.world == Wait(d.world)
  {
    WaitUnchanged(d.world);
    hide Unchanged, World.Valid;
  }

  lemma PrunedLess(d: Daemon)
    ensures Pruned(d).stuck <= d.stuck && Pruned(d).dropped <= d.dropped
  {
    hide Lost;
  }

  lemma TrackedSame(d: Daemon, d': Daemon)
    requires Tracked(d) && d'.world.owned == d.world.owned
    requires d'.state.applied == d.state.applied && d'.stuck == d.stuck && d'.dropped == d.dropped
    ensures Tracked(d')
  {
    hide InFootprint;
    forall item: Item
      ensures Lost(d', item) <==> Lost(d, item)
    {
    }
  }

  // ---------------------------------------------------------------- reconcile

  lemma EffectiveFlag(d: Document)
    ensures ActiveConfig(d).Some? ==> ActiveConfig(d).value.tunnel.enabled == d.tunnelEnabled
  {
    hide FirstWithID, ServerDefaults, LANDefaults, HealthDefaults;
  }

  lemma AppliedIgnoresMTU(c: Config, mtu: int)
    ensures BuildApplied(WithMTU(c, mtu)) == BuildApplied(c)
  {
  }

  lemma {:induction false} AfterPassSound(d: Daemon, p: Pass)
    requires Loaded(d) && p.config == WithMTU(d.config, p.config.tunnel.mtu)
    ensures Sound(AfterPass(d, p).state)
  {
    hide ConfigReasons, Sound, StateAfter, StuckItems, Distinct, ActiveConfig;
    EffectiveFlag(d.document);
    ConfigReasonsDistinct(d.config);
    StateAfterSound(d.state, d.document, ConfigReasons(d.config), p);
  }

  /** A pass couples the state to the config, whatever came of it. */
  lemma AfterPassCoupled(d: Daemon, p: Pass)
    requires Loaded(d) && p.config == WithMTU(d.config, p.config.tunnel.mtu)
    ensures Coupled(AfterPass(d, p))
  {
    hide ConfigReasons, BuildApplied, ActiveConfig, PassTroubles, PhaseAfter, StuckItems, ActiveProfile;
    EffectiveFlag(d.document);
    AppliedIgnoresMTU(d.config, p.config.tunnel.mtu);
  }

  lemma StuckIsAccounted(d: Daemon, item: Item)
    requires d.world.Valid() && Tracked(d) && item in Teardown(d.world, d.state.applied).owned
    ensures item in StuckItems(d.world, d.state.applied) || item in d.dropped || item in d.stuck
  {
    hide World.Valid, Teardown, Reduced, InFootprint, Onward;
    TeardownReduces(d.world, d.state.applied);
    ReducedValid(d.world, Teardown(d.world, d.state.applied));
    assert item in d.world.owned;
    assert Lost(d, item) || InFootprint(item, d.state.applied);
  }

  /** The daemon after a pass, before the lists are pruned. */
  function BeforePruning(d: Daemon, p: Pass): Daemon {
    d.(state := StateAfter(d.state, d.document, ConfigReasons(d.config), p),
       advertiser := p.advertiser,
       world := p.world,
       stuck := d.stuck + StuckItems(d.world, d.state.applied))
  }

  lemma {:induction false} AfterPassTracked(d: Daemon)
    requires d.world.Valid() && Loaded(d) && Tracked(d)
    ensures var p := RunPass(d.world, d.config, ValidConfig(d.config), d.state.applied); Tracked(AfterPass(d, p))
  {
    var valid := ValidConfig(d.config);
    var p := RunPass(d.world, d.config, valid, d.state.applied);
    var e := BeforePruning(d, p);
    assert AfterPass(d, p) == Pruned(e);
    hide World.Valid, RunPass, Reconcile, Teardown, InFootprint, BuildApplied, Loaded, StuckItems, PassTroubles,
         PhaseAfter, ActiveName, ActiveBroker, MTUAfter, Onward, ConfigReasons, Tracked, Pruned, AfterPass;
    PassKeeps(d.world, d.config, valid, d.state.applied);
    AppliedIgnoresMTU(d.config, p.config.tunnel.mtu);
    assert valid && d.config.tunnel.enabled ==> e.state.applied == BuildApplied(d.config);
    forall item: Item | Lost(e, item)
      ensures item in e.stuck || item in e.dropped
    {
      PassOwns(d.world, d.config, d.state.applied, item);
      StuckIsAccounted(d, item);
    }
    PrunedTracked(e);
  }

  /** A reconcile makes a loaded daemon steady, whatever fails in it; document, config and config file
      stay as they are. */
  lemma {:induction false} ReconcileSteadies(d: Daemon)
    requires Sane(d)
    ensures var r := ReconcileLocked(d);
            && Steady(r.daemon)
            && r.daemon.stuck <= d.stuck + StuckItems(d.world, d.state.applied)
            && r.daemon.dropped <= d.dropped
            && Onward(d.world, r.daemon.world)
            && r.daemon.document == d.document && r.daemon.config == d.config && r.daemon.configFile == d.configFile
  {
    var p := RunPass(d.world, d.config, ValidConfig(d.config), d.state.applied);
    var a := AfterPass(d, p);
    AfterPassTracked(d);
    AfterPassFrame(d);
    hide World.Valid, RunPass, Sound, StateAfter, StuckItems, Onward, ConfigReasons, Tracked, Coupled, PassFault,
         Loaded, SaveState, AfterPass;
    SaveStateKeeps(a);
    var s := SaveState(a);
    UnchangedOnward(d.world, a.world, s.daemon.world);
    UnchangedOwned(a.world, s.daemon.world);
    TrackedSame(a, s.daemon);
    CoupledSame(a, s.daemon);
  }

  lemma {:induction false} AfterPassFrame(d: Daemon)
    requires d.world.Valid() && Loaded(d)
    ensures var a := AfterPass(d, RunPass(d.world, d.config, ValidConfig(d.config), d.state.applied));
            && a.document == d.document && a.config == d.config && a.configFile == d.configFile
            && a.dropped <= d.dropped && a.stuck <= d.stuck + StuckItems(d.world, d.state.applied) && Onward(d.world, a.world) && a.world.Valid()
            && Coupled(a) && Sound(a.state)
  {
    hide World.Valid, RunPass, Reconcile, Sound, StateAfter, StuckItems, Onward, ConfigReasons, Coupled, Loaded;
    var p := RunPass(d.world, d.config, ValidConfig(d.config), d.state.applied);
    PassKeeps(d.world, d.config, ValidConfig(d.config), d.state.applied);
    PassWorldValid(d.world, p.world);
    AfterPassCoupled(d, p);
    AfterPassSound(d, p);
  }

  /** Coupling needs no history. */
  lemma {:induction false} ReconcileCouples(d: Daemon)
    requires d.world.Valid() && Loaded(d)
    ensures var e := ReconcileLocked(d).daemon; Coupled(e) && e.config == d.config && e.document == d.document
  {
    hide World.Valid, RunPass, Sound, StateAfter, StuckItems, Onward, ConfigReasons, Coupled, PassFault, Loaded,
         SaveState, AfterPass;
    var a := AfterPass(d, RunPass(d.world, d.config, ValidConfig(d.config), d.state.applied));
    AfterPassFrame(d);
    SaveStateKeeps(a);
    CoupledSame(a, SaveState(a).daemon);
  }

  lemma PassWorldValid(w: World, w': World)
    requires Onward(w, w')
    ensures w'.Valid()
  {
  }

  lemma UnchangedOwned(w: World, w': World)
    requires Unchanged(w, w')
    ensures w'.owned == w.owned && w'.Valid() && w'.kernel == w.kernel
  {
  }

  lemma CoupledSame(d: Daemon, d': Daemon)
    requires d'.document == d.document && d'.config == d.config && d'.state == d.state
    ensures Coupled(d') <==> Coupled(d)
  {
    hide Loaded, ValidConfig, BuildApplied;
    assert Loaded(d') <==> Loaded(d) by {
      LoadedSame(d, d');
    }
  }

  lemma LoadedSame(d: Daemon, d': Daemon)
    requires d'.document == d.document && d'.config == d.config
    ensures Loaded(d') <==> Loaded(d)
  {
  }
}
