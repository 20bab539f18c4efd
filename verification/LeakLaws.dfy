/** Exactly what is lost, and when: things the daemon installed that stay in the kernel although no
    state records them. */
module LeakLaws {
  import opened Options
  import opened Kernel
  import opened Config
  import opened ConfigLaws
  import opened Storage
  import opened Backend
  import opened AddressLaws
  import opened TeardownLaws
  import opened OwnershipLaws
  import opened ObserveLaws
  import opened PassLaws
  import opened Daemon
  import opened StatusLaws
  import opened DaemonLaws
  import opened UpdateLaws
  import opened RunLaws
  import Migration

  predicate WantsTunnel(d: Daemon) {
    ValidConfig(d.config) && d.config.tunnel.enabled
  }

  /** A reconcile leaves the item in the kernel: the teardown of what was recorded does, and so does
      establishing the config, if it is wanted. */
  predicate Leaves(d: Daemon, item: Item) {
    && SurvivesTeardown(d.world, d.state.applied, item)
    && !(WantsTunnel(d) && EstablishTakes(Teardown(d.world, d.state.applied), d.config, item))
  }

  lemma {:induction false} ReconcileWorld(d: Daemon)
    requires d.world.Valid()
    ensures ReconcileLocked(d).daemon.world.owned
         == Reconcile(d.world, d.config, ValidConfig(d.config), d.state.applied).world.owned
  {
    hide World.Valid, RunPass, Reconcile, StateAfter, StuckItems, ConfigReasons, Lost, Tracked, Loaded, Onward,
         PassFault;
    PassKeeps(d.world, d.config, ValidConfig(d.config), d.state.applied);
  }

  lemma {:induction false} AppliedAfterReconcile(d: Daemon)
    requires d.world.Valid() && Loaded(d)
    ensures var a := ReconcileLocked(d).daemon.state.applied;
            && (WantsTunnel(d) ==> a == BuildApplied(d.config))
            && (!d.config.tunnel.enabled ==> a == NOTHING_APPLIED)
            && (d.config.tunnel.enabled && !ValidConfig(d.config) ==> a == d.state.applied)
  {
    hide World.Valid, Loaded, ReconcileLocked, ValidConfig, BuildApplied;
    ReconcileCouples(d);
    if d.config.tunnel.enabled && !ValidConfig(d.config) {
      InvalidKeepsApplied(d);
    }
  }

  /** Exactly what is lost after a reconcile, whatever failed in it: what the daemon had, what neither the
      teardown nor the new data plane took away, and what is not recorded now. */
  lemma {:induction false} ReconcileLosesExactly(d: Daemon, item: Item)
    requires d.world.Valid() && Loaded(d)
    ensures var e := ReconcileLocked(d).daemon;
            Lost(e, item) <==> item in d.world.owned && Leaves(d, item) && !InFootprint(item, e.state.applied)
  {
    hide World.Valid, ReconcileLocked, Reconcile, InFootprint, BuildApplied, SurvivesTeardown, EstablishTakes, Teardown,
         Tracked, Loaded, ValidConfig;
    ReconcileWorld(d);
    AppliedAfterReconcile(d);
    var a := ReconcileLocked(d).daemon.state.applied;
    if WantsTunnel(d) {
      ValidHasEnds(d.config);
    }
    if !InFootprint(item, a) {
      ReconcileOwnsIff(d.world, d.config, ValidConfig(d.config), d.state.applied, item);
    }
  }

  /** With no tunnel wanted, exactly what stays: what was there and the teardown left. */
  lemma {:induction false} OffLeavesExactly(d: Daemon, item: Item)
    requires d.world.Valid() && !WantsTunnel(d)
    ensures item in ReconcileLocked(d).daemon.world.owned <==>
            item in d.world.owned && SurvivesTeardown(d.world, d.state.applied, item)
  {
    hide World.Valid, ReconcileLocked, Reconcile, InFootprint, SurvivesTeardown, EstablishTakes, Teardown, Tracked,
         Loaded, ValidConfig;
    ReconcileWorld(d);
    ReconcileOwnsIff(d.world, d.config, ValidConfig(d.config), d.state.applied, item);
  }

  // ---------------------------------------------------------------- rollback

  lemma {:induction false} RollbackWorld(d: Daemon, prior: Daemon)
    requires Steady(prior) && d.world.Valid() && Tracked(d)
    ensures Rollback(d, prior).world.owned == ReconcileLocked(RolledBack(d, prior)).daemon.world.owned
    ensures Rollback(d, prior).state.applied == prior.state.applied
    ensures ReconcileLocked(RolledBack(d, prior)).daemon.state.applied == prior.state.applied
    ensures Sane(RolledBack(d, prior))
  {
    hide World.Valid, Tracked, Sound, Coupled, ReconcileLocked, Steady, Sane, SaveState, RolledBack;
    SteadyParts(prior);
    RolledBackSane(d, prior);
    RollbackSteadies(d, prior);
    var b := RolledBack(d, prior);
    RolledBackFields(d, prior);
    SameApplied(b, prior);
    var inner := ReconcileLocked(b);
    ReconcileSteadies(b);
    SteadyParts(inner.daemon);
    SaveStateKeeps(Restored(inner.daemon, prior));
    UnchangedOwned(inner.daemon.world, SaveState(Restored(inner.daemon, prior)).daemon.world);
  }

  lemma RolledBackFields(d: Daemon, prior: Daemon)
    ensures var b := RolledBack(d, prior);
            b.document == prior.document && b.config == prior.config && b.state == prior.state && b.world == d.world
  {
    hide Lost, Recorded;
  }

  /** Exactly what is lost after a rollback, item by item and whatever fails in it: what the daemon had
      when it began, what the old state does not record, and what re-establishing the old config, if it
      is wanted, does not take away. */
  lemma {:induction false} RollbackLosesExactly(d: Daemon, prior: Daemon, item: Item)
    requires Steady(prior) && d.world.Valid() && Tracked(d)
    ensures Lost(Rollback(d, prior), item) <==>
            && item in d.world.owned
            && !InFootprint(item, prior.state.applied)
            && !(WantsTunnel(prior) && EstablishTakes(Teardown(d.world, prior.state.applied), prior.config, item))
  {
    hide World.Valid, Tracked, Sound, Coupled, ReconcileLocked, Steady, Sane, InFootprint, EstablishTakes, Teardown,
         ValidConfig, RolledBack, Rollback, Undeleted;
    RollbackWorld(d, prior);
    RolledBackFields(d, prior);
    SaneParts(RolledBack(d, prior));
    ReconcileLosesExactly(RolledBack(d, prior), item);
  }

  /** Rolling back to a config that wants no tunnel, or is invalid: exactly what is in the kernel afterwards
      is what was there and lies outside the old footprint, or whose deletions all failed. */
  lemma {:induction false} RollbackLeavesExactly(d: Daemon, prior: Daemon, item: Item)
    requires Steady(prior) && d.world.Valid() && Tracked(d) && !WantsTunnel(prior)
    ensures item in Rollback(d, prior).world.owned <==>
            item in d.world.owned && SurvivesTeardown(d.world, prior.state.applied, item)
  {
    hide World.Valid, Tracked, Sound, Coupled, ReconcileLocked, Steady, Sane, InFootprint, SurvivesTeardown,
         ValidConfig, RolledBack, Rollback;
    RollbackWorld(d, prior);
    RolledBackFields(d, prior);
    SaneParts(RolledBack(d, prior));
    OffLeavesExactly(RolledBack(d, prior), item);
  }

  /** The same told beforehand, when the rollback's own reconcile works: of what the daemon had and the old
      state does not record, everything is lost but the addresses of LAN devices that are reset and another
      route to the same endpoint. */
  lemma {:induction false} WorkingRollbackLoses(d: Daemon, prior: Daemon, item: Item)
    requires Steady(prior) && d.world.Valid() && Tracked(d) && WantsTunnel(prior)
    requires ReconcileLocked(RolledBack(d, prior)).err.None?
    ensures Lost(Rollback(d, prior), item) <==>
            && item in d.world.owned
            && !InFootprint(item, prior.state.applied)
            && !SuccessTakes(Teardown(d.world, prior.state.applied).kernel.net, prior.config, item)
  {
    hide World.Valid, Tracked, Sound, Coupled, Steady, Sane, InFootprint, EstablishTakes, SuccessTakes, Teardown,
         ValidConfig, RolledBack, Rollback, Onward;
    RollbackLosesExactly(d, prior, item);
    RolledBackFields(d, prior);
    var down := Teardown(d.world, prior.state.applied);
    TeardownReduces(d.world, prior.state.applied);
    ReducedValid(d.world, down);
    EstablishedWithoutError(RolledBack(d, prior));
    if item in d.world.owned {
      OwnedIsOffTunnel(d.world, item);
      SuccessTakesExactly(down, prior.config, item);
    }
  }

  lemma {:induction false} EstablishedWithoutError(d: Daemon)
    requires WantsTunnel(d) && ReconcileLocked(d).err.None?
    ensures Establish(Teardown(d.world, d.state.applied), d.config).err.None?
  {
    hide ConfigReasons, Establish, Teardown, StateAfter, StuckItems, Lost, StartIf, ObserveFor, ProbeIf;
    ValidMeansNoReasons(d.config);
  }

  /** A rollback to a config that wants no tunnel loses everything the failed one had installed. */
  lemma {:induction false} RollbackToOffLeaks(d: Daemon, prior: Daemon, item: Item)
    requires Steady(prior) && d.world.Valid() && Tracked(d) && !prior.config.tunnel.enabled
    ensures item in Rollback(d, prior).world.owned <==> item in d.world.owned
    ensures item in d.world.owned ==> Lost(Rollback(d, prior), item)
    ensures Rollback(d, prior).state.applied == NOTHING_APPLIED
  {
    hide World.Valid, Tracked, Sound, Loaded, Steady, EstablishTakes, Teardown, ValidConfig, Rollback, BuildApplied,
         InFootprint;
    SteadyParts(prior);
    assert prior.state.applied == NOTHING_APPLIED;
    NothingInFootprint(item);
    RollbackLosesExactly(d, prior, item);
    RollbackWorld(d, prior);
  }

  lemma NothingInFootprint(item: Item)
    ensures !InFootprint(item, NOTHING_APPLIED)
  {
  }

  /** The daemon from which a failing update is rolled back; None if it is refused at once or works. */
  function Failing(d: Daemon, proposed: Document): Option<Daemon> {
    var next := Migration.PreservePort(proposed, d.document);
    if !ValidDocument(next) || ActiveConfig(Checked(next)).None? then None
    else
      var r := ReconcileLocked(Adopt(d, Checked(next), ActiveConfig(Checked(next)).value));
      var s := SaveConfigFile(r.daemon);
      if r.err.Some? then Some(r.daemon) else if s.err.Some? then Some(s.daemon) else None
  }

  lemma {:induction false} FailingSteady(d: Daemon, proposed: Document)
    requires Steady(d) && Failing(d, proposed).Some?
    ensures var e := Failing(d, proposed).value;
            UpdateConfigDocument(d, proposed).daemon == Rollback(e, d) && Steady(e)
  {
    hide Steady, ReconcileLocked, Rollback, ValidDocument, Checked, ActiveConfig, SaveConfigFile, Onward, Unchanged;
    var doc := Checked(Migration.PreservePort(proposed, d.document));
    var c := ActiveConfig(doc).value;
    ReconciledUpdate(d, doc, c);
    var r := ReconcileLocked(Adopt(d, doc, c));
    SaveConfigKeeps(r.daemon);
  }

  /** What a failed update leaves behind, exactly. If it was refused at once, nothing has happened. Otherwise
      it got as far as the data plane, and of what was in the kernel when it was undone an item is lost if
      and only if the old state does not record it and re-establishing the old config, if that is wanted,
      does not take it; with an old config that is disabled or invalid, what stays in the kernel at all is
      what the old state does not record or what could not be deleted. */
  lemma {:induction false} FailedUpdateLeaves(d: Daemon, proposed: Document, item: Item)
    requires Steady(d) && UpdateConfigDocument(d, proposed).err.Some?
    ensures var u := UpdateConfigDocument(d, proposed).daemon; var f := Failing(d, proposed);
            && (f.None? ==> u == d)
            && (f.Some? ==>
                 && (Lost(u, item) <==>
                      && item in f.value.world.owned
                      && !InFootprint(item, d.state.applied)
                      && !(WantsTunnel(d) && EstablishTakes(Teardown(f.value.world, d.state.applied), d.config, item)))
                 && (!WantsTunnel(d) ==>
                      (item in u.world.owned <==>
                       item in f.value.world.owned && SurvivesTeardown(f.value.world, d.state.applied, item))))
  {
    hide World.Valid, Tracked, Sound, Coupled, Steady, ReconcileLocked, Rollback, ValidDocument, DocumentReasons,
         Checked, ActiveConfig, SaveConfigFile, Lost, ValidConfig, EstablishTakes, Teardown, InFootprint,
         SurvivesTeardown, Sane, WantsTunnel;
    if Failing(d, proposed).Some? {
      var e := Failing(d, proposed).value;
      FailingSteady(d, proposed);
      SteadyParts(e);
      RollbackLosesExactly(e, d, item);
      if !WantsTunnel(d) {
        RollbackLeavesExactly(e, d, item);
      }
    }
  }

  /** A failed `up`: the data plane has taken the new config, the config file cannot be written, and the
      update is undone. Everything it had installed is still in the kernel, and nothing records it. */
  lemma {:induction false} FailedSaveLeaks(d: Daemon, proposed: Document, item: Item)
    requires Steady(d) && !d.config.tunnel.enabled
    requires var next := Migration.PreservePort(proposed, d.document);
             ValidDocument(next) && ActiveConfig(Checked(next)).Some?
    requires var r := ReconcileLocked(Adopt(d, Checked(Migration.PreservePort(proposed, d.document)),
                                            ActiveConfig(Checked(Migration.PreservePort(proposed, d.document))).value));
             r.err.None? && Fails(r.daemon.world) && item in r.daemon.world.owned
    ensures var u := UpdateConfigDocument(d, proposed);
            && u.err == Some(ConfigNotSaved)
            && Lost(u.daemon, item)
            && u.daemon.config == d.config && u.daemon.state.applied == NOTHING_APPLIED
            && (u.daemon.state.phase == Phase.Down || u.daemon.state == d.state)
  {
    hide World.Valid, Tracked, Sound, Coupled, Steady, ReconcileLocked, Rollback, ValidDocument, DocumentReasons,
         Checked, ActiveConfig, SaveDocument, Lost, Onward, Unchanged, ValidConfig;
    var doc := Checked(Migration.PreservePort(proposed, d.document));
    var c := ActiveConfig(doc).value;
    var r := ReconcileLocked(Adopt(d, doc, c));
    ReconciledUpdate(d, doc, c);
    SteadyParts(r.daemon);
    CheckedSaves(Migration.PreservePort(proposed, d.document), r.daemon);
    SaveConfigKeeps(r.daemon);
    var s := SaveConfigFile(r.daemon);
    SteadyParts(s.daemon);
    UnchangedOwned(r.daemon.world, s.daemon.world);
    RollbackToOffLeaks(s.daemon, d, item);
    RollbackSteadies(s.daemon, d);
    RolledBackFields(s.daemon, d);
    OffIsDown(RolledBack(s.daemon, d));
  }

  /** A daemon that wants no tunnel is down after every reconcile. */
  lemma OffIsDown(d: Daemon)
    requires d.world.Valid() && !d.config.tunnel.enabled
    ensures ReconcileLocked(d).daemon.state.phase == Phase.Down
  {
    hide World.Valid, RunPass, Reconcile, ConfigReasons, StuckItems, Lost, PassTroubles, AppliedAfter, MTUAfter, Onward;
    PassKeeps(d.world, d.config, ValidConfig(d.config), d.state.applied);
  }

  /** A checked document validates if the original does. */
  lemma {:induction false} CheckedIsValid(next: Document)
    ensures ValidDocument(Checked(next)) <==> ValidDocument(next)
  {
    hide ValidDocument, ActiveConfig, ValidConfig, Checked, WellNamed;
    ValidDocumentIff(next);
    ValidDocumentIff(Checked(next));
    ActiveConfigOfChecked(Checked(next));
    CheckedShape(next);
    SameNames(next);
    assert WithActiveID(Checked(next)) == Checked(next);
  }

  /** A document that was put in place as a valid one can be saved: only the write can fail. */
  lemma {:induction false} CheckedSaves(next: Document, e: Daemon)
    requires ValidDocument(next) && e.document == Checked(next) && Fails(e.world)
    ensures SaveConfigFile(e).err == Some(ConfigNotSaved)
  {
    hide ValidDocument, Checked, SaveDocument, DocumentReasons;
    CheckedIsValid(next);
    SaveSucceedsIff(e.document);
  }

  // ---------------------------------------------------------------- restart

  /** Exactly what is lost after the daemon was started again, from whatever a section that was cut off has
      left: what it had, what the state file and the config in the config file leave in the kernel, and what
      is not recorded now. If the state had not reached its file, this can be everything. */
  lemma {:induction false} RestartLosesExactly(d: Daemon, doc: Document, c: Config, item: Item)
    requires d.world.Valid() && ParseDocument(d.configFile) == Some(doc) && ActiveConfig(doc) == Some(c)
    ensures var e := Restarted(d); var a := d.stateFile.applied;
            Lost(e, item) <==>
            && item in d.world.owned
            && SurvivesTeardown(d.world, a, item)
            && !(ValidConfig(c) && c.tunnel.enabled && EstablishTakes(Teardown(d.world, a), c, item))
            && !InFootprint(item, e.state.applied)
  {
    hide World.Valid, ReconcileLocked, ParseDocument, ActiveConfig, SurvivesTeardown, EstablishTakes, Teardown,
         InFootprint, ValidConfig;
    ReconcileLosesExactly(Pruned(Reloaded(d, doc, c)), item);
  }

  /** A restart with a state file that never recorded anything and a config that wants no tunnel loses
      everything that is in the kernel. */
  lemma {:induction false} UnsavedRestartLeaks(d: Daemon, doc: Document, c: Config, item: Item)
    requires d.world.Valid() && ParseDocument(d.configFile) == Some(doc) && ActiveConfig(doc) == Some(c)
    requires !c.tunnel.enabled && d.stateFile.applied == NOTHING_APPLIED && item in d.world.owned
    ensures Lost(Restarted(d), item)
  {
    hide World.Valid, ReconcileLocked, ParseDocument, ActiveConfig, EstablishTakes, Teardown, InFootprint, ValidConfig,
         Undeleted;
    NothingInFootprint(item);
    AppliedAfterReconcile(Pruned(Reloaded(d, doc, c)));
    RestartLosesExactly(d, doc, c, item);
  }

  // ---------------------------------------------------------------- nothing failing

  lemma {:induction false} CalmSurvives(w: World, a: AppliedState, item: Item)
    requires w.Valid() && w.Calm() && item in w.owned
    ensures SurvivesTeardown(w, a, item) <==> !InFootprint(item, a)
  {
    hide World.Valid, World.Calm, InFootprint, AllDeletionsFail, TeardownScript, Teardown;
    TeardownLeaves(w, a, item);
  }

  /** Switching off, nothing failing, leaves exactly what was lost before: from any steady daemon, an item
      is still in the kernel if and only if it was and the state did not record it. */
  lemma {:induction false} CalmDownLeaves(d: Daemon, item: Item)
    requires Steady(d) && d.world.Calm()
    requires SetEnabled(d, false).err.None?
    ensures item in SetEnabled(d, false).daemon.world.owned <==> Lost(d, item)
  {
    hide ReconcileLocked, Steady, Onward, Rollback, ValidDocument, DocumentReasons, ActiveConfig, SaveDocument, Sane,
         World.Calm, World.Valid, Checked, SurvivesTeardown, InFootprint, ValidConfig, Unchanged;
    var next := Migration.PreservePort(d.document.(tunnelEnabled := false), d.document);
    var doc := Checked(next);
    var c := ActiveConfig(doc).value;
    SteadyParts(d);
    CheckedShape(next);
    EffectiveFlag(doc);
    AdoptSane(d, doc, c);
    ReconciledUpdate(d, doc, c);
    var r := ReconcileLocked(Adopt(d, doc, c));
    OffLeavesExactly(Adopt(d, doc, c), item);
    SaveConfigKeeps(r.daemon);
    UnchangedOwned(r.daemon.world, SaveConfigFile(r.daemon).daemon.world);
    if item in d.world.owned {
      CalmSurvives(d.world, d.state.applied, item);
    }
  }

  /** A reconcile in which nothing fails without reason loses nothing more. */
  lemma {:induction false} CalmReconcileLosesNothing(d: Daemon, item: Item)
    requires Sane(d) && d.world.Calm()
    ensures Lost(ReconcileLocked(d).daemon, item) ==> Lost(d, item)
  {
    hide World.Valid, World.Calm, ReconcileLocked, InFootprint, EstablishTakes, Teardown, Tracked, Loaded,
         SurvivesTeardown, ValidConfig;
    ReconcileLosesExactly(d, item);
    if item in d.world.owned {
      CalmSurvives(d.world, d.state.applied, item);
    }
  }
}
