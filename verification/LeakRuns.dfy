/** Concrete runs of the daemon that lose something: a failed `up`, and a restart at the wrong moment. */
module LeakRuns {
  import opened Options
  import opened Text
  import opened Kernel
  import opened Config
  import opened ConfigLaws
  import opened Lenses
  import opened Storage
  import opened Backend
  import opened AddressLaws
  import opened TeardownLaws
  import opened FirewallLaws
  import opened JumpLaws
  import opened ChainLaws
  import opened ObserveLaws
  import opened PassLaws
  import opened Daemon
  import opened DaemonLaws
  import opened UpdateLaws
  import opened RunLaws
  import opened LeakLaws
  import opened DeathLaws
  import opened Scenarios
  import Migration

  // ---------------------------------------------------------------- a fresh installation

  const BLANK_DOCUMENT: Document := DocumentFromConfig(BLANK_CONFIG, FORMAT_LEGACY)

  const DOWN: State := DEFAULT_STATE.(configValid := true, phase := Phase.Down)

  /** A daemon that has come up for the first time, on a bare host; the `n`th command or write from now on
      fails, and nothing else. */
  function Fresh(n: nat): Daemon {
    Daemon(BLANK_DOCUMENT, BLANK_CONFIG, DOWN, None, EncodeLegacy(ConfigDefaults(BLANK_CONFIG)), DOWN,
      World(Kernel(HOST, Firewall(map[], multiset{})), {}, 0, (t: nat) => Fate(t == n, false, map[], true, 0)), {}, {})
  }

  lemma BlankDocument()
    ensures ParseDocument(Fresh(0).configFile) == Some(BLANK_DOCUMENT)
    ensures ActiveConfig(BLANK_DOCUMENT) == Some(BLANK_CONFIG)
    ensures BLANK_DOCUMENT.server == BLANK_CONFIG.server && BLANK_DOCUMENT.activeProfileID == DEFAULT_PROFILE_ID
    ensures |BLANK_DOCUMENT.profiles| == 1 && BLANK_DOCUMENT.profiles[0].id == DEFAULT_PROFILE_ID
         && BLANK_DOCUMENT.profiles[0].name == DEFAULT_PROFILE_NAME
    ensures !BLANK_DOCUMENT.tunnelEnabled
  {
    hide ParseDocument, EncodeLegacy, ProfileReasons, ConfigDefaults;
    Migration.FreshStoreInSync();
    Migration.BlankDefaults();
    assert Migration.FreshStore() == Migration.Store(BLANK_DOCUMENT, Fresh(0).configFile);
  }

  lemma FreshWorld(n: nat)
    ensures var w := Fresh(n).world;
            && w.Valid() && w.kernel.net == HOST && w.now == 0 && w.owned == {}
            && (forall d: Chain :: w.kernel.fw.jumps[d] == 0)
            && (forall t: nat {:trigger w.fate(t)} :: (w.fate(t).fails <==> t == n) && w.fate(t).autoconf == map[])
  {
  }

  /** The fresh daemon meets everything that holds on every run, and its file is in sync. */
  lemma {:induction false} FreshIsSteady(n: nat)
    ensures Steady(Fresh(n)) && Migration.InSync(StoreOf(Fresh(n)))
    ensures ActiveConfig(Fresh(n).document) == Some(BLANK_CONFIG) && ValidConfig(BLANK_CONFIG)
  {
    hide World.Valid, ValidConfig, ActiveConfig, ParseDocument, EncodeLegacy, InFootprint, DocumentFromConfig;
    FreshWorld(n);
    Migration.BlankIsValid();
    BlankDocument();
    assert Tracked(Fresh(n)) by {
      forall item: Item
        ensures !Lost(Fresh(n), item)
      {
      }
    }
    assert DOWN.troubles == [];
  }

  // ---------------------------------------------------------------- the request

  /** The document of a client that stores the service's config. */
  function Request(): Option<Document> {
    PutConfig(BLANK_DOCUMENT, SERVICE)
  }

  lemma {:induction false} RequestIsGood()
    ensures Request().Some?
    ensures var next := Migration.PreservePort(Request().value, BLANK_DOCUMENT);
            ValidDocument(next) && ActiveConfig(Checked(next)) == Some(SERVICE)
  {
    hide PutConfig, ActiveConfig, DocumentFromConfig, ValidConfig, ValidDocument, Checked, IsBlank, ConfigDefaults,
         WellNamed;
    BlankDocument();
    BlankHasActive();
    PutFrame(BLANK_DOCUMENT, SERVICE);
    PutGet(BLANK_DOCUMENT, SERVICE);
    ServiceHasDefaults();
    ServiceIsValid();
    var e := Request().value;
    assert Migration.PreservePort(e, BLANK_DOCUMENT) == e;
    DefaultNames();
    assert WithActiveID(e) == e;
    ActiveConfigOfChecked(e);
    assert WellNamed(e.profiles) by {
      OneIsWellNamed(e.profiles);
    }
    ValidDocumentIff(e);
  }

  lemma BlankHasActive()
    ensures ActiveProfile(BLANK_DOCUMENT).Some? && ActiveIndex(BLANK_DOCUMENT) == 0
  {
    hide ParseDocument, EncodeLegacy;
    BlankDocument();
    hide DocumentFromConfig;
  }

  lemma DefaultNames()
    ensures !IsBlank(DEFAULT_PROFILE_ID) && !IsBlank(DEFAULT_PROFILE_NAME)
  {
    assert !IsSpace(DEFAULT_PROFILE_ID[0]) && !IsSpace(DEFAULT_PROFILE_NAME[0]);
  }

  lemma OneIsWellNamed(ps: seq<Profile>)
    requires |ps| == 1 && !IsBlank(ps[0].id) && !IsBlank(ps[0].name)
    ensures WellNamed(ps)
  {
    hide IsBlank;
  }

  // ---------------------------------------------------------------- the reconcile

  /** Where no chain is jumped to, installing the firewall takes seventeen commands, whatever fails. */
  lemma {:induction false} FirewallTakes(w: World, wan: string)
    requires w.Valid() && forall d: Chain :: w.kernel.fw.jumps[d] == 0
    ensures FirewallUp(w, wan).now == w.now + 17
  {
    hide World.Valid, InstallChain;
    var a := InstallChain(w, InputChain, wan);
    var b := InstallChain(a, ForwardChain, wan);
    InstallTakes(w, InputChain, wan);
    InstallSpares(w, InputChain, wan, ForwardChain);
    InstallTakes(a, ForwardChain, wan);
    InstallSpares(w, InputChain, wan, MssChain);
    InstallSpares(a, ForwardChain, wan, MssChain);
    InstallTakes(b, MssChain, wan);
  }

  lemma WANIsNotBlank()
    ensures !IsBlank(WAN)
  {
    assert !IsSpace(WAN[0]);
  }

  lemma ServedIsThere()
    ensures var n := Served(); n.tunnel.Some? && WAN in n.links && WAN in n.wan4
    ensures StateOf(Served(), TUNNEL, LOCAL) == Healthy
  {
    hide LinkLocals;
  }

  lemma DevicesAnswer(n: Network, f: Fate)
    requires n.tunnel.Some? && WAN in n.links
    ensures NetworkEffect(n, Read(ShowLink(TUNNEL)), f) == Some(n)
    ensures NetworkEffect(n, Read(ShowAddr4(WAN)), f) == Some(n)
    ensures NetworkEffect(n, Read(ShowAddr6(TUNNEL)), f) == Some(n)
  {
    WANIsNotTheTunnel();
  }

  /** Looking at the finished service takes three commands and finds it complete. */
  lemma {:induction false} ObserveRun(w: World)
    requires w.kernel.net == Served() && AllWork(w.fate, w.now, 3)
    ensures var o := Observe(w, WAN, Some(SERVICE));
            o.err.None? && o.observation.missing == [] && o.world.now == w.now + 3 && o.world.fate == w.fate
  {
    hide Exec, NetworkEffect, Served, Run, Present, Creates, StateOf, IsBlank;
    AtStart(w);
    WANIsNotBlank();
    ServedIsThere();
    DevicesAnswer(Served(), w.fate(w.now));
    DevicesAnswer(Served(), w.fate(w.now + 1));
    DevicesAnswer(Served(), w.fate(w.now + 2));
    Next(w, 0, Served(), w, Read(ShowLink(TUNNEL)), Served(), ROUTE);
    var w1 := Exec(w, Read(ShowLink(TUNNEL))).world;
    Next(w, 1, Served(), w1, Read(ShowAddr4(WAN)), Served(), ROUTE);
    var w2 := Exec(w1, Read(ShowAddr4(WAN))).world;
    Next(w, 2, Served(), w2, Read(ShowAddr6(TUNNEL)), Served(), ROUTE);
  }

  /** A bare host at instant 0, with the commands before instant 41 working. */
  ghost predicate Undisturbed(w: World) {
    && w.Valid() && w.kernel.net == HOST && w.now == 0
    && (forall d: Chain :: w.kernel.fw.jumps[d] == 0)
    && AllWork(w.fate, 0, 41) && w.fate(16).autoconf == map[]
  }

  /** The pass for the service on the bare host: thirty-eight commands to establish it and three to look. */
  lemma {:induction false} PassRun(w: World)
    requires Undisturbed(w)
    ensures var p := RunPass(w, SERVICE, true, NOTHING_APPLIED);
            && p.backendErr.None? && p.advertiserErr.None? && p.observeErr.None?
            && p.world.now == 41 && p.world.fate == w.fate && ROUTE in p.world.owned
  {
    hide World.Valid, Reconcile, FirewallUp, Prepared, AllWork, Served, Teardown, Observe, OnlyFirewall, Unchanged,
         Present, Onward;
    assert AllWork(w.fate, 11, 10) && AllWork(w.fate, 38, 3) by {
      WorkWithin(w.fate, 11, 10);
      WorkWithin(w.fate, 38, 3);
    }
    HostReconcile(w);
    var ready := Prepared(w);
    forall d: Chain
      ensures ready.kernel.fw.jumps[d] == 0
    {
      TeardownJumps(w, NOTHING_APPLIED, d);
    }
    FirewallTakes(ready, WAN);
    FirewallUpOnlyFirewall(ready, WAN);
    var up := FirewallUp(ready, WAN);
    OnlyFirewallMeans(ready, up);
    ObserveRun(up);
    PassKeeps(w, SERVICE, true, NOTHING_APPLIED);
  }

  lemma WorkWithin(fate: nat -> Fate, t: nat, k: nat)
    requires AllWork(fate, 0, 41) && t + k <= 41
    ensures AllWork(fate, t, k)
  {
  }

  lemma OnlyFirewallMeans(w: World, w': World)
    requires OnlyFirewall(w, w')
    ensures w'.kernel.net == w.kernel.net && w'.owned == w.owned && w'.fate == w.fate
  {
  }

  lemma FreshUndisturbed(n: nat)
    requires n >= 41
    ensures Undisturbed(Fresh(n).world) && Undisturbed(Doomed(Fresh(n), 41).world)
  {
    FreshWorld(n);
    hide World.Valid;
    SameWorldValid(Fresh(n).world, Cut(Fresh(n).world.fate, 41));
  }

  /** The first section of the update on a daemon that records nothing: the data plane is up, and if the next
      write fails the state does not reach its file. */
  lemma {:induction false} UpRun(d: Daemon, doc: Document)
    requires Undisturbed(d.world) && d.state.applied == NOTHING_APPLIED && ActiveConfig(doc) == Some(SERVICE)
    ensures var r := ReconcileLocked(Adopt(d, doc, SERVICE));
            && r.err == (if d.world.fate(41).fails then Some(StateNotSaved) else None)
            && (d.world.fate(41).fails ==> r.daemon.stateFile == d.stateFile)
            && r.daemon.configFile == d.configFile
            && r.daemon.world.now == 42 && r.daemon.world.fate == d.world.fate && ROUTE in r.daemon.world.owned
  {
    hide RunPass, StateAfter, StuckItems, Lost, ConfigReasons, Undisturbed;
    ServiceIsValid();
    ValidMeansNoReasons(SERVICE);
    PassRun(d.world);
  }

  // ---------------------------------------------------------------- what is lost

  /** A failed `up`. The reconcile works, the config file cannot be written, and the update is undone: the
      daemon is down and records nothing, and the route to the endpoint is still in the kernel. */
  lemma {:induction false} FailedUpLeaks()
    ensures Steady(Fresh(42)) && Fresh(42).world.owned == {}
    ensures var u := UpdateConfig(Fresh(42), SERVICE);
            && u.err == Some(ConfigNotSaved)
            && u.daemon.state.phase == Phase.Down && u.daemon.state.applied == NOTHING_APPLIED
            && u.daemon.config == BLANK_CONFIG
            && Lost(u.daemon, ROUTE)
  {
    hide Steady, Tracked, ReconcileLocked, UpdateConfigDocument, ValidDocument, ActiveConfig, Checked, PutConfig,
         DocumentFromConfig, Lost, World.Valid, Migration.InSync, ValidConfig;
    var d := Fresh(42);
    RequestIsGood();
    var next := Migration.PreservePort(Request().value, BLANK_DOCUMENT);
    FreshIsSteady(42);
    FreshWorld(42);
    FreshUndisturbed(42);
    UpRun(d, Checked(next));
    FailedSaveLeaks(d, Request().value, ROUTE);
  }

  /** A restart at the wrong moment. The same update, but the state does not reach its file, and the daemon
      is killed before it can roll back: the new one tears down what the file says, which is nothing. */
  lemma {:induction false} KilledUpLeaks()
    ensures Request().Some?
    ensures var next := Migration.PreservePort(Request().value, BLANK_DOCUMENT);
            var r := ReconcileLocked(Adopt(Fresh(41), Checked(next), SERVICE));
            && r.err == Some(StateNotSaved) && Steady(r.daemon)
            && InFootprint(ROUTE, r.daemon.state.applied)
            && Lost(Restarted(r.daemon), ROUTE)
  {
    hide Steady, Tracked, ReconcileLocked, ValidDocument, ActiveConfig, Checked, PutConfig, DocumentFromConfig, Lost,
         World.Valid, ValidConfig, ParseDocument, EncodeLegacy, Restarted, Coupled, InFootprint, BuildApplied, Sane,
         Onward;
    var d := Fresh(41);
    RequestIsGood();
    var doc := Checked(Migration.PreservePort(Request().value, BLANK_DOCUMENT));
    FreshIsSteady(41);
    FreshWorld(41);
    BlankDocument();
    FreshUndisturbed(41);
    UpRun(d, doc);
    ReconciledUpdate(d, doc, SERVICE);
    var r := ReconcileLocked(Adopt(d, doc, SERVICE));
    SteadyParts(r.daemon);
    UnsavedRestartLeaks(r.daemon, BLANK_DOCUMENT, BLANK_CONFIG, ROUTE);
    ServiceIsValid();
    CoupledFacts(r.daemon);
    RouteInFootprint();
  }

  lemma RemainsOfUpdate(d: Daemon, proposed: Document, after: nat)
    ensures Remains(d, Updates(proposed), after) == Spared(UpdateConfigDocument(Doomed(d, after), proposed).daemon, d.world.fate)
  {
    hide UpdateConfigDocument, Cut;
  }

  /** What is left when the daemon dies in the update before it writes the state. */
  lemma {:induction false} DeadUpRemains()
    requires Request().Some?
    ensures var f := Remains(Fresh(100), Updates(Request().value), 41);
            ROUTE in f.world.owned && f.configFile == Fresh(100).configFile && f.stateFile == DOWN
  {
    hide Steady, ReconcileLocked, Rollback, ValidDocument, ActiveConfig, Checked, PutConfig, DocumentFromConfig,
         World.Valid, ValidConfig, EncodeLegacy, Cut, Migration.InSync, Undisturbed, Onward, Remains, Sane, Coupled,
         Tracked;
    RequestIsGood();
    var d := Fresh(100);
    var w := Doomed(d, 41);
    var doc := Checked(Migration.PreservePort(Request().value, BLANK_DOCUMENT));
    FreshIsSteady(100);
    FreshWorld(100);
    FreshUndisturbed(100);
    DoomedFields(d, 41);
    UpRun(w, doc);
    var r := ReconcileLocked(Adopt(w, doc, SERVICE)).daemon;
    SteadyAnyway(d, Cut(d.world.fate, d.world.now + 41));
    ReconciledUpdate(w, doc, SERVICE);
    SteadyParts(r);
    DeadRollback(r, w);
    RemainsOfUpdate(d, Request().value, 41);
  }

  /** Death in the middle of an update. Nothing has failed and nothing was rolled back: the data plane is up,
      and the daemon dies before it writes the state. The new one finds files that know of nothing. */
  lemma {:induction false} DeadUpLeaks()
    ensures Request().Some? && Steady(Fresh(100)) && !Lost(Fresh(100), ROUTE)
    ensures forall t: nat {:trigger Fresh(100).world.fate(t)} :: t < 100 ==> !Fresh(100).world.fate(t).fails
    ensures Lost(Happens(Fresh(100), Dies(Updates(Request().value), 41)), ROUTE)
  {
    hide Steady, ActiveConfig, PutConfig, DocumentFromConfig, World.Valid, ValidConfig, ParseDocument, EncodeLegacy,
         Restarted, Migration.InSync, InFootprint, Happens, Remains, Sane, Coupled, Tracked;
    RequestIsGood();
    var f := Remains(Fresh(100), Updates(Request().value), 41);
    FreshIsSteady(100);
    FreshWorld(100);
    BlankDocument();
    DeadUpRemains();
    RemainsRestart(Fresh(100), Updates(Request().value), 41);
    RemainsSteady(Fresh(100), Updates(Request().value), 41);
    SteadyParts(f);
    UnsavedRestartLeaks(f, BLANK_DOCUMENT, BLANK_CONFIG, ROUTE);
  }

  lemma DoomedFields(d: Daemon, after: nat)
    ensures var w := Doomed(d, after);
            && w == d.(world := w.world)
            && w.world == d.world.(fate := w.world.fate)
            && forall t: nat {:trigger w.world.fate(t)} :: t >= d.world.now + after ==> w.world.fate(t).fails
  {
  }

  lemma RouteInFootprint()
    ensures InFootprint(ROUTE, BuildApplied(SERVICE))
  {
  }
}
