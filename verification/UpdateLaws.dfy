/** Config updates: they either take effect as a whole or leave document, config and file untouched. */
module UpdateLaws {
  import opened Options
  import opened Kernel
  import opened Config
  import opened ConfigLaws
  import opened Storage
  import opened Backend
  import opened AddressLaws
  import opened TeardownLaws
  import opened ReconcileLaws
  import opened Convergence
  import opened ObserveLaws
  import opened PassLaws
  import opened Daemon
  import opened StatusLaws
  import opened DaemonLaws
  import Migration
  import RoundTrips

  // ---------------------------------------------------------------- rollback

  lemma RolledBackSane(d: Daemon, prior: Daemon)
    requires d.world.Valid() && Tracked(d) && Loaded(prior)
    ensures Sane(RolledBack(d, prior))
  {
    hide InFootprint, World.Valid, ActiveConfig;
    var b := Restored(d, prior).(dropped := d.dropped + Recorded(d));
    forall item: Item | Lost(b, item)
      ensures item in b.stuck || item in b.dropped
    {
      assert Lost(d, item) || item in Recorded(d);
    }
    PrunedTracked(b);
    LoadedSame(prior, RolledBack(d, prior));
  }

  /** For an invalid config a reconcile leaves the recorded footprint as it is. */
  lemma InvalidKeepsApplied(d: Daemon)
    requires d.world.Valid() && d.config.tunnel.enabled && !ValidConfig(d.config)
    ensures ReconcileLocked(d).daemon.state.applied == d.state.applied
  {
    hide World.Valid, RunPass, Reconcile, Sound, StuckItems, Onward, ConfigReasons, Tracked, Loaded, PassTroubles,
         PhaseAfter, ActiveProfile;
    PassKeeps(d.world, d.config, false, d.state.applied);
  }

  /** Reconciling for the old config records what was recorded before. */
  lemma SameApplied(b: Daemon, prior: Daemon)
    requires Sane(b) && Coupled(prior)
    requires b.document == prior.document && b.config == prior.config && b.state == prior.state
    ensures ReconcileLocked(b).daemon.state.applied == prior.state.applied
  {
    hide ReconcileLocked, Sane, Sound, Tracked, Loaded, ValidConfig, BuildApplied;
    ReconcileSteadies(b);
    SteadyParts(ReconcileLocked(b).daemon);
    if prior.config.tunnel.enabled && !ValidConfig(prior.config) {
      SaneParts(b);
      InvalidKeepsApplied(b);
    }
  }

  lemma SteadyParts(d: Daemon)
    requires Steady(d)
    ensures d.world.Valid() && Coupled(d) && Tracked(d) && Sound(d.state) && Loaded(d) && Sane(d)
  {
    hide World.Valid, Tracked, Sound, ActiveConfig, ValidConfig;
  }

  lemma SteadyIntro(d: Daemon)
    requires d.world.Valid() && Coupled(d) && Tracked(d) && Sound(d.state)
    ensures Steady(d)
  {
    hide World.Valid, Tracked, Sound, Coupled;
  }

  /** The daemon after a rollback: old document, old config, the file as it was; steady whether or not
      the rollback's own reconcile worked. If it did not, the old state is back too. */
  lemma {:induction false} RollbackSteadies(d: Daemon, prior: Daemon)
    requires Steady(prior) && d.world.Valid() && Tracked(d)
    ensures var r := Rollback(d, prior); var inner := ReconcileLocked(RolledBack(d, prior));
            && Steady(r)
            && r.document == prior.document && r.config == prior.config && r.configFile == d.configFile
            && r.dropped <= d.dropped + Recorded(d)
            && r.state.applied == prior.state.applied
            && Onward(d.world, r.world)
            && (inner.err.None? ==> r == inner.daemon)
            && (inner.err.Some? ==> r.state == prior.state)
  {
    hide World.Valid, Onward, Tracked, Sound, Coupled, Loaded, ReconcileLocked, Sane, SaveState, Steady;
    SteadyParts(prior);
    var b := RolledBack(d, prior);
    RolledBackSane(d, prior);
    ReconcileSteadies(b);
    var inner := ReconcileLocked(b);
    SteadyParts(inner.daemon);
    PrunedLess(Restored(d, prior).(dropped := d.dropped + Recorded(d)));
    hide Pruned, Recorded;
    SameApplied(b, prior);
    if inner.err.Some? {
      var e := Restored(inner.daemon, prior);
      TrackedSame(inner.daemon, e);
      CoupledSame(prior, e);
      RestoredSaved(e, prior);
      UnchangedOnward(d.world, e.world, SaveState(e).daemon.world);
    }
  }

  lemma RestoredSaved(e: Daemon, prior: Daemon)
    requires e.world.Valid() && Coupled(e) && Tracked(e) && Sound(e.state)
    ensures var r := SaveState(e).daemon;
            && Steady(r) && Unchanged(e.world, r.world)
            && r == e.(world := r.world, stateFile := r.stateFile)
  {
    hide World.Valid, Tracked, Sound, Coupled, SaveState, Steady;
    SaveStateKeeps(e);
    var r := SaveState(e).daemon;
    UnchangedOwned(e.world, r.world);
    CoupledSame(e, r);
    TrackedSame(e, r);
    SteadyIntro(r);
  }

  // ---------------------------------------------------------------- an update

  lemma AdoptSane(d: Daemon, doc: Document, c: Config)
    requires Steady(d) && ActiveConfig(doc) == Some(c)
    ensures Sane(Adopt(d, doc, c))
  {
    hide World.Valid, Tracked, Sound, Coupled, ActiveConfig;
    TrackedSame(d, Adopt(d, doc, c));
  }

  lemma {:induction false} SaveConfigKeeps(d: Daemon)
    requires Steady(d)
    ensures var s := SaveConfigFile(d);
            && Steady(s.daemon) && Unchanged(d.world, s.daemon.world)
            && s.daemon == d.(world := s.daemon.world, configFile := s.daemon.configFile)
            && (s.err.Some? ==> s.daemon.configFile == d.configFile)
            && (s.err.None? ==> SaveDocument(d.document) == Some(s.daemon.configFile))
  {
    hide World.Valid, Tracked, Sound, Coupled, SaveDocument, Unchanged;
    WaitUnchanged(d.world);
    UnchangedRefl(d.world);
    var s := SaveConfigFile(d);
    UnchangedOwned(d.world, s.daemon.world);
    CoupledSame(d, s.daemon);
    TrackedSame(d, s.daemon);
  }

  /** Everything an update promises. */
  ghost predicate Updated(d: Daemon, r: Result) {
    && Steady(r.daemon)
    && Onward(d.world, r.daemon.world)
    && (r.err.Some? ==>
          r.daemon.document == d.document && r.daemon.config == d.config && r.daemon.configFile == d.configFile)
    && (r.err.None? ==>
          ValidDocument(r.daemon.document) && SaveDocument(r.daemon.document) == Some(r.daemon.configFile)
          && r.daemon.dropped <= d.dropped)
  }

  lemma {:induction false} ReconciledUpdate(d: Daemon, doc: Document, c: Config)
    requires Steady(d) && ActiveConfig(doc) == Some(c)
    ensures var r := ReconcileLocked(Adopt(d, doc, c));
            && Steady(r.daemon) && Onward(d.world, r.daemon.world)
            && r.daemon.document == doc && r.daemon.config == c && r.daemon.configFile == d.configFile && r.daemon.dropped <= d.dropped
  {
    hide ReconcileLocked, Steady, Sane, Onward, ActiveConfig;
    AdoptSane(d, doc, c);
    ReconcileSteadies(Adopt(d, doc, c));
  }

  /** Undoing a failed update, from wherever it failed. */
  lemma {:induction false} RolledBackUpdate(d: Daemon, e: Daemon, fault: Fault)
    requires Steady(d) && Steady(e) && Onward(d.world, e.world) && e.configFile == d.configFile
    ensures Updated(d, Result(Rollback(e, d), Some(fault)))
  {
    hide Rollback, Steady, Onward, ReconcileLocked, SaveDocument, ValidDocument;
    SteadyParts(e);
    RollbackSteadies(e, d);
    OnwardTrans(d.world, e.world, Rollback(e, d).world);
  }

  lemma {:induction false} SavedUpdate(d: Daemon, e: Daemon)
    requires Steady(d) && Steady(e) && Onward(d.world, e.world) && e.configFile == d.configFile && e.dropped <= d.dropped
    ensures var s := SaveConfigFile(e);
            if s.err.Some? then Updated(d, Result(Rollback(s.daemon, d), s.err)) else Updated(d, s)
  {
    hide Rollback, Steady, Onward, SaveDocument, SaveConfigFile, Unchanged;
    SaveConfigKeeps(e);
    var s := SaveConfigFile(e);
    UnchangedOnward(d.world, e.world, s.daemon.world);
    if s.err.Some? {
      RolledBackUpdate(d, s.daemon, s.err.value);
    } else {
      SaveSucceedsIff(e.document);
    }
  }

  lemma {:induction false} RefusedUpdate(d: Daemon, fault: Fault)
    requires Steady(d)
    ensures Updated(d, Result(d, Some(fault)))
  {
    SteadyParts(d);
    hide Steady, World.Valid, World.Calm;
  }

  /** Updates are atomic. Whenever an update reports an error -- from validation, from the data plane or
      from the disk -- document, config and config file are what they were; when it reports none, the
      document in place is valid and is what the file says. Either way the daemon is steady. */
  lemma {:induction false} UpdateIsAtomic(d: Daemon, proposed: Document)
    requires Steady(d)
    ensures Updated(d, UpdateConfigDocument(d, proposed))
  {
    hide ReconcileLocked, Steady, Onward, Rollback, SaveConfigFile, ValidDocument, DocumentReasons, Checked,
         ActiveConfig, Updated;
    var next := Migration.PreservePort(proposed, d.document);
    var doc := Checked(next);
    if !ValidDocument(next) {
      RefusedUpdate(d, ConfigInvalid(DocumentReasons(next)));
    } else if ActiveConfig(doc).None? {
      RefusedUpdate(d, NoActiveProfile(doc.activeProfileID));
    } else {
      var c := ActiveConfig(doc).value;
      var r := ReconcileLocked(Adopt(d, doc, c));
      ReconciledUpdate(d, doc, c);
      if r.err.Some? {
        RolledBackUpdate(d, r.daemon, r.err.value);
      } else {
        SavedUpdate(d, r.daemon);
      }
    }
  }

  /** As far as document and file go, an update is the store's update. */
  lemma {:induction false} UpdateRefinesStore(d: Daemon, proposed: Document)
    requires Steady(d)
    ensures var r := UpdateConfigDocument(d, proposed);
            Migration.Store(r.daemon.document, r.daemon.configFile)
            == Migration.Update(Migration.Store(d.document, d.configFile), proposed, r.err.None?)
  {
    hide ReconcileLocked, Steady, Onward, Rollback, ValidDocument, DocumentReasons, Checked, ActiveConfig, SaveDocument;
    UpdateIsAtomic(d, proposed);
    var next := Migration.PreservePort(proposed, d.document);
    var doc := Checked(next);
    if ValidDocument(next) {
      if ActiveConfig(doc).Some? {
        ReconciledUpdate(d, doc, ActiveConfig(doc).value);
      } else {
        ValidHasActive(next);
      }
    }
  }

  function StoreOf(d: Daemon): Migration.Store {
    Migration.Store(d.document, d.configFile)
  }

  /** Whatever a client asks for, and however the update ends, loading the config file afterwards gives
      exactly the document in memory. */
  lemma {:induction false} RequestKeepsSync(d: Daemon, r: Migration.Request)
    requires Steady(d) && Migration.InSync(StoreOf(d)) && Migration.Proposal(d.document, r).Some?
    ensures Migration.InSync(StoreOf(UpdateConfigDocument(d, Migration.Proposal(d.document, r).value).daemon))
  {
    hide Steady, Migration.InSync, Migration.Proposal, Migration.Update, UpdateConfigDocument, Migration.FormatFits,
         RoundTrips.NoFlags;
    var proposed := Migration.Proposal(d.document, r).value;
    UpdateRefinesStore(d, proposed);
    Migration.ProposalFits(StoreOf(d), r);
    Migration.UpdateKeepsSync(StoreOf(d), proposed, UpdateConfigDocument(d, proposed).err.None?);
  }

  lemma {:induction false} ValidHasActive(d: Document)
    requires ValidDocument(d)
    ensures ActiveConfig(Checked(d)).Some?
  {
    ValidDocumentIff(d);
    hide ValidDocument, ActiveConfig, Checked, ValidConfig;
  }

  // ---------------------------------------------------------------- success means served

  /** The kernel holds everything the daemon's config intends, with the MTU the status reports. */
  ghost predicate Serves(d: Daemon) {
    var n := d.world.kernel.net; var wan := d.config.server.wanInterface;
    && wan in n.wan4
    && Converged(n, WithMTU(d.config, d.state.effectiveMTU), n.wan4[wan])
    && Some(d.state.effectiveMTU) == TargetMTU(n, d.config)
  }

  lemma {:induction false} PassReached(w: World, c: Config, applied: AppliedState)
    requires w.Valid() && c.tunnel.enabled && LANOffTunnel(c)
    requires RunPass(w, c, true, applied).backendErr.None?
    ensures var p := RunPass(w, c, true, applied); var n := p.world.kernel.net; var wan := c.server.wanInterface;
            && wan in n.wan4
            && Converged(n, p.config, n.wan4[wan])
            && p.config == WithMTU(c, p.config.tunnel.mtu)
            && Some(p.config.tunnel.mtu) == TargetMTU(n, c)
            && p.config.tunnel.mtu > 0
  {
    hide RunPass, Reconcile, Converged, World.Valid, LANOffTunnel;
    PassKeeps(w, c, true, applied);
    ReconcileConverges(w, c, applied);
    var p := RunPass(w, c, true, applied);
    SameDevices(w, p.world);
    ConvergedMTU(p.world.kernel.net, p.config, w.kernel.net.wan4[c.server.wanInterface]);
    hide Onward;
  }

  lemma SameDevices(w: World, w': World)
    requires Onward(w, w')
    ensures w'.kernel.net.wan4 == w.kernel.net.wan4 && w'.kernel.net.links == w.kernel.net.links && w'.fate == w.fate
  {
  }

  lemma ConvergedMTU(n: Network, c: Config, wan4: string)
    requires Converged(n, c, wan4)
    ensures TUNNEL_MTU_MIN <= c.tunnel.mtu <= TUNNEL_MTU_MAX
    ensures n.tunnel.Some? && n.tunnel.value.mtu == c.tunnel.mtu
  {
    hide AllHealthy, ChosenSource, Network.Assigned;
  }

  /** A reconcile without error of a valid, wanted config: the kernel serves it. */
  lemma {:induction false} ReconcileServes(d: Daemon)
    requires Sane(d) && ValidConfig(d.config) && d.config.tunnel.enabled && LANOffTunnel(d.config)
    requires ReconcileLocked(d).err.None?
    ensures Serves(ReconcileLocked(d).daemon)
  {
    hide RunPass, Converged, World.Valid, LANOffTunnel, Tracked, Loaded, StuckItems, PassTroubles, PhaseAfter,
         AppliedAfter, ActiveProfile, ConfigReasons, TargetMTU;
    ValidMeansNoReasons(d.config);
    var p := RunPass(d.world, d.config, true, d.state.applied);
    assert p.backendErr.None?;
    PassReached(d.world, d.config, d.state.applied);
  }

  lemma ValidMeansNoReasons(c: Config)
    ensures ValidConfig(c) <==> ConfigReasons(c) == []
  {
    hide ConfigReasons;
  }

  /** A failed update whose rollback worked leaves the kernel serving the old config again. */
  lemma {:induction false} RollbackServes(d: Daemon, prior: Daemon)
    requires Steady(prior) && d.world.Valid() && Tracked(d)
    requires ValidConfig(prior.config) && prior.config.tunnel.enabled && LANOffTunnel(prior.config)
    requires ReconcileLocked(RolledBack(d, prior)).err.None?
    ensures Serves(Rollback(d, prior))
  {
    hide ReconcileLocked, Steady, Tracked, World.Valid, ValidConfig, LANOffTunnel, Serves, Sane, Loaded;
    SteadyParts(prior);
    RolledBackSane(d, prior);
    ReconcileServes(RolledBack(d, prior));
  }

  lemma {:induction false} RollbackRestores(d: Daemon, prior: Daemon)
    requires Steady(prior) && d.world.Valid() && Tracked(d)
    ensures var r := Rollback(d, prior);
            || r.state == prior.state
            || (ValidConfig(prior.config) && prior.config.tunnel.enabled && LANOffTunnel(prior.config) ==> Serves(r))
  {
    hide ReconcileLocked, Steady, Tracked, World.Valid, ValidConfig, LANOffTunnel, Serves, Rollback;
    RollbackSteadies(d, prior);
    if ReconcileLocked(RolledBack(d, prior)).err.None? && ValidConfig(prior.config) && prior.config.tunnel.enabled && LANOffTunnel(prior.config) {
      RollbackServes(d, prior);
    }
  }

  /** After a failed update either the old state is back as it was, or the old config has been
      reconciled successfully: the kernel then serves it, if it is valid and wanted. */
  lemma {:induction false} FailedUpdateRestores(d: Daemon, proposed: Document)
    requires Steady(d) && UpdateConfigDocument(d, proposed).err.Some?
    ensures var r := UpdateConfigDocument(d, proposed).daemon;
            || r.state == d.state
            || (ValidConfig(d.config) && d.config.tunnel.enabled && LANOffTunnel(d.config) ==> Serves(r))
  {
    hide ReconcileLocked, Steady, Tracked, World.Valid, ValidConfig, LANOffTunnel, Serves, Rollback, SaveConfigFile,
         ValidDocument, DocumentReasons, Checked, ActiveConfig;
    var next := Migration.PreservePort(proposed, d.document);
    var doc := Checked(next);
    if ValidDocument(next) && ActiveConfig(doc).Some? {
      var c := ActiveConfig(doc).value;
      var r := ReconcileLocked(Adopt(d, doc, c));
      ReconciledUpdate(d, doc, c);
      SteadyParts(r.daemon);
      if r.err.Some? {
        RollbackRestores(r.daemon, d);
      } else {
        SaveConfigKeeps(r.daemon);
        SteadyParts(SaveConfigFile(r.daemon).daemon);
        RollbackRestores(SaveConfigFile(r.daemon).daemon, d);
      }
    }
  }
}
