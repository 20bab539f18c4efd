/** Document in memory and config file over every interleaving of the service's sections. */
module SyncLaws {
  import opened Text
  import opened Kernel
  import opened Config
  import opened ConfigLaws
  import opened Storage
  import opened RoundTrips
  import opened Migration
  import opened Daemon
  import opened DaemonLaws
  import opened ObserveLaws
  import opened UpdateLaws
  import opened RunLaws
  import opened Backend
  import opened TeardownLaws
  import opened OwnershipLaws
  import opened LeakLaws

  /** A document of the shape every client request makes: format and naming agree, no flags in profiles. */
  predicate Storable(d: Document) {
    FormatFits(d) && NoFlags(d) && !IsBlank(d.activeProfileID)
  }

  predicate ProposesStorable(e: Event)
    decreases e
  {
    (e.Updates? ==> Storable(e.proposed)) && (e.Dies? ==> ProposesStorable(e.doing))
  }

  // ---------------------------------------------------------------- what clients propose

  /** An old copy of a document with the tunnel switched on or off. */
  lemma {:induction false} OldCopyIsStorable(s: Store, on: bool)
    requires InSync(s)
    ensures Storable(s.document.(tunnelEnabled := on))
  {
    hide InSync, ShouldSaveLegacy, IsBlank, Checked;
    InSyncShape(s);
    SameFormat(s.document, s.document.(tunnelEnabled := on));
  }

  lemma SameFormat(d: Document, e: Document)
    requires e.storageFormat == d.storageFormat && e.activeProfileID == d.activeProfileID && e.profiles == d.profiles
    ensures FormatFits(e) <==> FormatFits(d)
    ensures NoFlags(e) <==> NoFlags(d)
  {
  }

  /** An old copy with another config written into its active profile. */
  lemma {:induction false} OldCopyWithConfigIsStorable(s: Store, c: Config)
    requires InSync(s) && PutConfig(s.document, c).Some?
    ensures Storable(PutConfig(s.document, c).value)
  {
    hide InSync, ShouldSaveLegacy, IsBlank, Checked, PutConfig, FormatFits, NoFlags;
    InSyncShape(s);
    PutFits(s.document, c);
  }

  /** The body of a PUT, in either format, read against any old copy. */
  lemma {:induction false} RequestIsStorable(s: Store, r: Request)
    requires InSync(s) && Proposal(s.document, r).Some?
    ensures Storable(Proposal(s.document, r).value)
  {
    hide InSync, Proposal, FormatFits, NoFlags, IsBlank;
    ProposalFits(s, r);
  }

  // ---------------------------------------------------------------- the events

  lemma {:induction false} UpdateInSync(d: Daemon, proposed: Document)
    requires Steady(d) && InSync(StoreOf(d)) && Storable(proposed)
    ensures InSync(StoreOf(UpdateConfigDocument(d, proposed).daemon))
  {
    hide Steady, InSync, Migration.Update, UpdateConfigDocument, FormatFits, NoFlags, IsBlank;
    UpdateRefinesStore(d, proposed);
    UpdateKeepsSync(StoreOf(d), proposed, UpdateConfigDocument(d, proposed).err.None?);
  }

  /** A restart of a daemon in sync comes up again, with the document and the config it had. */
  lemma {:induction false} RestartComesUp(d: Daemon)
    requires Steady(d) && InSync(StoreOf(d))
    ensures Load(d.configFile, d.stateFile, d.world, d.stuck, d.dropped + Recorded(d)).Some?
    ensures Restarted(d).document == d.document && Restarted(d).config == d.config && Restarted(d).configFile == d.configFile
  {
    hide ReconcileLocked, ActiveConfig, ParseDocument, Sane, Steady, Coupled;
    SteadyParts(d);
    ReloadedSane(d, d.document, d.config);
    ReconcileSteadies(Pruned(Reloaded(d, d.document, d.config)));
  }

  /** With file and memory in sync and the config valid, a restart loses nothing that was recorded, however
      old the state file is. Exactly what is lost after it was lost before, and neither the teardown of
      what the state file says nor the new data plane took it. */
  lemma {:induction false} RestartLosesNothingNew(d: Daemon, item: Item)
    requires Steady(d) && InSync(StoreOf(d)) && ValidConfig(d.config)
    ensures Lost(Restarted(d), item) <==>
            && Lost(d, item)
            && SurvivesTeardown(d.world, d.stateFile.applied, item)
            && !(d.config.tunnel.enabled && EstablishTakes(Teardown(d.world, d.stateFile.applied), d.config, item))
  {
    hide ActiveConfig, ParseDocument, Sane, Steady, Restarted, ValidConfig, InFootprint, SurvivesTeardown,
         EstablishTakes, Teardown, BuildApplied;
    SteadyParts(d);
    RestartComesUp(d);
    RestartSteadies(d);
    SteadyParts(Restarted(d));
    RestartLosesExactly(d, d.document, d.config, item);
  }

  lemma {:induction false} HappensInSync(d: Daemon, e: Event)
    requires Steady(d) && InSync(StoreOf(d)) && Possible(e) && ProposesStorable(e)
    ensures InSync(StoreOf(Happens(d, e)))
    decreases e
  {
    hide Cut, Steady, ReconcileLocked, UpdateConfigDocument, WriteBack, Repair, Restarted, Disturbed, InSync, Storable,
         Lost, Sane, Unchanged;
    match e
    case Updates(proposed) => UpdateInSync(d, proposed);
    case Reconciles =>
      SteadyParts(d);
      ReconcileSteadies(d);
    case WritesBack(sight) => WriteBackSteadies(d, sight);
    case Repairs => RepairSteadies(d);
    case WorldChanges(k, later) =>
    case Restarts => RestartComesUp(d);
    case Dies(doing, after) =>
      SteadyAnyway(d, Cut(d.world.fate, d.world.now + after));
      HappensSteadies(Doomed(d, after), doing);
      HappensInSync(Doomed(d, after), doing);
      SteadyAnyway(Happens(Doomed(d, after), doing), d.world.fate);
      RestartComesUp(Spared(Happens(Doomed(d, after), doing), d.world.fate));
  }

  /** Over every run -- any interleaving of sections, failing commands and disk writes, proposals made
      from copies however old, the daemon restarting or dying in the middle of a section -- loading the
      config file gives exactly the document in memory. */
  lemma {:induction false} PlayInSync(d: Daemon, es: seq<Event>)
    requires Steady(d) && InSync(StoreOf(d))
    requires forall e <- es :: Possible(e) && ProposesStorable(e)
    ensures InSync(StoreOf(Play(d, es)))
    decreases |es|
  {
    hide Steady, Happens, Possible, ProposesStorable, InSync;
    if es != [] {
      HappensSteadies(d, es[0]);
      HappensInSync(d, es[0]);
      PlayInSync(Happens(d, es[0]), es[1..]);
    }
  }

  lemma {:induction false} HappensStaysValid(d: Daemon, e: Event)
    requires Steady(d) && InSync(StoreOf(d)) && Possible(e) && ValidDocument(d.document)
    requires ProposesStorable(e)
    ensures ValidDocument(Happens(d, e).document)
    decreases e
  {
    hide Cut, Steady, ReconcileLocked, UpdateConfigDocument, WriteBack, Repair, Restarted, Disturbed, InSync, Storable,
         Lost, Sane, Unchanged, ValidDocument, SaveDocument;
    match e
    case Updates(proposed) => UpdateIsAtomic(d, proposed);
    case Reconciles =>
      SteadyParts(d);
      ReconcileSteadies(d);
    case WritesBack(sight) => WriteBackSteadies(d, sight);
    case Repairs => RepairSteadies(d);
    case WorldChanges(k, later) =>
    case Restarts => RestartComesUp(d);
    case Dies(doing, after) =>
      SteadyAnyway(d, Cut(d.world.fate, d.world.now + after));
      HappensSteadies(Doomed(d, after), doing);
      HappensInSync(Doomed(d, after), doing);
      HappensStaysValid(Doomed(d, after), doing);
      SteadyAnyway(Happens(Doomed(d, after), doing), d.world.fate);
      RestartComesUp(Spared(Happens(Doomed(d, after), doing), d.world.fate));
  }

  /** Once the document in memory is valid it stays valid on every run. */
  lemma {:induction false} PlayStaysValid(d: Daemon, es: seq<Event>)
    requires Steady(d) && InSync(StoreOf(d)) && ValidDocument(d.document)
    requires forall e <- es :: Possible(e) && ProposesStorable(e)
    ensures ValidDocument(Play(d, es).document)
    decreases |es|
  {
    hide Steady, Happens, Possible, ProposesStorable, InSync, ValidDocument;
    if es != [] {
      HappensSteadies(d, es[0]);
      HappensInSync(d, es[0]);
      HappensStaysValid(d, es[0]);
      PlayStaysValid(Happens(d, es[0]), es[1..]);
    }
  }

  // ---------------------------------------------------------------- the only ways to lose something

  lemma {:induction false} ValidInSync(d: Daemon)
    requires Steady(d) && InSync(StoreOf(d)) && ValidDocument(d.document)
    ensures ValidConfig(d.config)
  {
    hide ValidDocument, ActiveConfig, Checked, Steady, InSync, ValidConfig, FormatFits, NoFlags, IsBlank, WellNamed;
    SteadyParts(d);
    InSyncShape(StoreOf(d));
    ValidDocumentIff(d.document);
  }

  lemma {:induction false} RestartDropsNothing(d: Daemon)
    requires Steady(d) && InSync(StoreOf(d)) && ValidConfig(d.config)
    ensures Restarted(d).dropped <= d.dropped
  {
    hide ActiveConfig, ParseDocument, Sane, Steady, Restarted, ValidConfig, SurvivesTeardown, EstablishTakes, Teardown,
         InFootprint;
    SteadyParts(d);
    RestartSteadies(d);
    SteadyParts(Restarted(d));
    forall item | item in Restarted(d).dropped
      ensures item in d.dropped
    {
      assert Lost(Restarted(d), item);
      RestartLosesNothingNew(d, item);
      RestartedDropped(d, item);
    }
  }

  lemma {:induction false} RestartedDropped(d: Daemon, item: Item)
    requires Steady(d) && InSync(StoreOf(d)) && item in Restarted(d).dropped
    ensures item in d.dropped || item in Recorded(d)
  {
    hide ActiveConfig, ParseDocument, Sane, Steady, ReconcileLocked, Recorded, Lost;
    SteadyParts(d);
    ReloadedSane(d, d.document, d.config);
    ReconcileSteadies(Pruned(Reloaded(d, d.document, d.config)));
    PrunedLess(Reloaded(d, d.document, d.config));
  }

  /** No client's update is under way. */
  predicate LeavesConfig(e: Event)
    decreases e
  {
    !e.Updates? && (e.Dies? ==> LeavesConfig(e.doing))
  }

  /** An update takes effect, and the daemon does not die in the middle of one. */
  predicate Commits(d: Daemon, e: Event) {
    && (e.Updates? ==> UpdateConfigDocument(d, e.proposed).err.None?)
    && (e.Dies? ==> LeavesConfig(e.doing))
  }

  predicate AllCommit(d: Daemon, es: seq<Event>)
    decreases |es|
  {
    es != [] ==> Commits(d, es[0]) && AllCommit(Happens(d, es[0]), es[1..])
  }

  lemma {:induction false} HappensDropsNothing(d: Daemon, e: Event)
    requires Steady(d) && InSync(StoreOf(d)) && ValidDocument(d.document) && Possible(e) && ProposesStorable(e)
    requires Commits(d, e)
    ensures Happens(d, e).dropped <= d.dropped
    decreases e
  {
    hide Cut, Steady, ReconcileLocked, UpdateConfigDocument, WriteBack, Repair, Restarted, Disturbed, InSync, Lost,
         Sane, Unchanged, ValidDocument, SaveDocument;
    match e
    case Updates(proposed) => UpdateIsAtomic(d, proposed);
    case Reconciles =>
      SteadyParts(d);
      ReconcileSteadies(d);
    case WritesBack(sight) => WriteBackSteadies(d, sight);
    case Repairs => RepairSteadies(d);
    case WorldChanges(k, later) =>
    case Restarts =>
      ValidInSync(d);
      RestartDropsNothing(d);
    case Dies(doing, after) =>
      var f := Happens(Doomed(d, after), doing);
      SteadyAnyway(d, Cut(d.world.fate, d.world.now + after));
      HappensSteadies(Doomed(d, after), doing);
      HappensInSync(Doomed(d, after), doing);
      HappensStaysValid(Doomed(d, after), doing);
      HappensDropsNothing(Doomed(d, after), doing);
      SteadyAnyway(f, d.world.fate);
      ValidInSync(Spared(f, d.world.fate));
      RestartDropsNothing(Spared(f, d.world.fate));
  }

  /** The only ways to lose something. On a run on which no update is rolled back and the daemon does not die
      in the middle of one -- with everything else that can happen: failing commands, failing writes,
      restarts, death in any other section -- whatever is in the kernel and not recorded is there because a
      teardown tried to delete it and failed. */
  lemma {:induction false} OnlyStuckIsLost(d: Daemon, es: seq<Event>, item: Item)
    requires Steady(d) && InSync(StoreOf(d)) && ValidDocument(d.document) && d.dropped == {}
    requires forall e <- es :: Possible(e) && ProposesStorable(e)
    requires AllCommit(d, es)
    ensures Lost(Play(d, es), item) <==> item in Play(d, es).stuck
    decreases |es|
  {
    hide Steady, Happens, Possible, ProposesStorable, InSync, ValidDocument, UpdateConfigDocument, Lost, Commits;
    if es == [] {
      SteadyParts(d);
      TrackedMeans(d, item);
    } else {
      HappensSteadies(d, es[0]);
      HappensInSync(d, es[0]);
      HappensStaysValid(d, es[0]);
      HappensDropsNothing(d, es[0]);
      OnlyStuckIsLost(Happens(d, es[0]), es[1..], item);
    }
  }

  lemma TrackedMeans(d: Daemon, item: Item)
    requires Tracked(d)
    ensures Lost(d, item) <==> item in d.stuck || item in d.dropped
  {
    hide Lost;
  }
}
