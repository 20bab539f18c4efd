/** Whole runs of the service: any interleaving of its locked sections, with the world changing and
    the daemon restarting in between. */
module RunLaws {
  import opened Options
  import opened Kernel
  import opened Config
  import opened ConfigLaws
  import opened Storage
  import opened Backend
  import opened AddressLaws
  import opened TeardownLaws
  import opened ReconcileLaws
  import opened ObserveLaws
  import opened RepairLaws
  import opened PassLaws
  import opened Daemon
  import opened StatusLaws
  import opened DaemonLaws
  import opened UpdateLaws

  /** One locked section, or something that happens to the daemon between two of them or in the middle of
      one. A health check is a write-back of anything it may have seen, with any config it may have started
      from; a client's update may propose any document, also one made from an old copy. The daemon may die
      at any instant of a section; it is then started again. */
  datatype Event =
    | Updates(proposed: Document)
    | Reconciles
    | WritesBack(sight: Sight)
    | Repairs
    | WorldChanges(kernel: Kernel, later: nat)
    | Restarts
    | Dies(doing: Event, after: nat)

  /** The world after someone else changed the kernel; what the daemon installed and is gone is no
      longer its own. */
  function Disturbed(w: World, k: Kernel, later: nat): World {
    World(k, (set item <- w.owned | Present(k.net, item)), w.now + later, w.fate)
  }

  /** Stop and start again: memory is lost, the files are read, and Start reconciles. What was recorded
      in memory only is dropped. With a config file that does not load the daemon would not come up; it
      is then left as it is. */
  function Restarted(d: Daemon): Daemon {
    match Load(d.configFile, d.stateFile, d.world, d.stuck, d.dropped + Recorded(d))
    case None => d
    case Some(e) => ReconcileLocked(e).daemon
  }

  /** From the instant `t` on nothing works any more. */
  function Cut(fate: nat -> Fate, t: nat): nat -> Fate {
    (i: nat) => if i < t then fate(i) else fate(i).(fails := true)
  }

  /** The daemon with `after` more instants to live. Of what it does later no command and no write has any
      effect, so that kernel and files stay as death found them. */
  function Doomed(d: Daemon, after: nat): Daemon {
    d.(world := d.world.(fate := Cut(d.world.fate, d.world.now + after)))
  }

  /** The daemon back among the living. */
  function Spared(d: Daemon, fate: nat -> Fate): Daemon {
    d.(world := d.world.(fate := fate))
  }

  function Happens(d: Daemon, e: Event): Daemon
    decreases e
  {
    match e
    case Updates(proposed) => UpdateConfigDocument(d, proposed).daemon
    case Reconciles => ReconcileLocked(d).daemon
    case WritesBack(sight) => WriteBack(d, sight).daemon
    case Repairs => Repair(d).daemon
    case WorldChanges(k, later) => Pruned(d.(world := Disturbed(d.world, k, later)))
    case Restarts => Restarted(d)
    case Dies(doing, after) => Restarted(Spared(Happens(Doomed(d, after), doing), d.world.fate))
  }

  function Play(d: Daemon, es: seq<Event>): Daemon
    decreases |es|
  {
    if es == [] then d else Play(Happens(d, es[0]), es[1..])
  }

  /** The kernel that others leave behind is a possible one. */
  ghost predicate Possible(e: Event)
    decreases e
  {
    (e.WorldChanges? ==> e.kernel.Valid()) && (e.Dies? ==> Possible(e.doing))
  }

  // ---------------------------------------------------------------- each event keeps the daemon steady

  lemma {:induction false} WriteBackSteadies(d: Daemon, s: Sight)
    requires Steady(d)
    ensures var r := WriteBack(d, s);
            && Steady(r.daemon) && Unchanged(d.world, r.daemon.world)
            && r.daemon.document == d.document && r.daemon.config == d.config && r.daemon.configFile == d.configFile
            && r.daemon.state == StateAfterSight(d.state, s)
            && r.daemon.dropped == d.dropped && r.daemon.stuck == d.stuck
  {
    hide World.Valid, Tracked, Sound, Coupled, SaveState, Steady, Unchanged, SightTroubles;
    SteadyParts(d);
    var e := d.(state := StateAfterSight(d.state, s));
    StateAfterSightSound(d.state, s);
    CoupledStatus(d, e);
    TrackedSame(d, e);
    SaveStateKeeps(e);
    UnchangedOwned(e.world, SaveState(e).daemon.world);
    CoupledSame(e, SaveState(e).daemon);
    TrackedSame(e, SaveState(e).daemon);
    SteadyIntro(SaveState(e).daemon);
  }

  lemma CoupledStatus(d: Daemon, e: Daemon)
    requires e.document == d.document && e.config == d.config
    requires e.state.desiredEnabled == d.state.desiredEnabled && e.state.configValid == d.state.configValid && e.state.applied == d.state.applied
    ensures Coupled(e) <==> Coupled(d)
  {
    hide Loaded, ValidConfig, BuildApplied;
    LoadedSame(d, e);
  }

  lemma CoupledFacts(d: Daemon)
    requires Coupled(d)
    ensures d.config.tunnel.enabled && ValidConfig(d.config) ==>
              d.state.desiredEnabled && d.state.configValid && d.state.applied == BuildApplied(d.config)
  {
    hide Loaded, ValidConfig, BuildApplied;
  }

  /** A repair adds only items of the recorded footprint: nothing gets lost. */
  lemma {:induction false} RepairLosesNothing(d: Daemon, item: Item)
    requires Steady(d) && ValidConfig(d.config) && d.config.tunnel.enabled
    requires Lost(d.(world := RepairAddresses(d.world, d.config).world), item)
    ensures Lost(d, item)
  {
    hide World.Valid, RepairAddresses, Sound, Coupled, ValidConfig, BuildApplied, InFootprint, Items, Steady, Tracked,
         Onward;
    SteadyParts(d);
    RepairOwns(d.world, d.config);
    CoupledFacts(d);
    ValidHasEnds(d.config);
    ItemsAreFootprint(d.config, item);
  }

  /** The world after a repair and the observation that follows it. */
  function RepairWorld(d: Daemon): World {
    Observe(RepairAddresses(d.world, d.config).world, d.config.server.wanInterface, Some(d.config)).world
  }

  lemma {:induction false} RepairWorldKeeps(d: Daemon)
    requires d.world.Valid() && d.config.tunnel.enabled
    ensures Onward(d.world, RepairWorld(d))
    ensures Unchanged(RepairAddresses(d.world, d.config).world, RepairWorld(d))
  {
    hide World.Valid, RepairAddresses, Observe, Items, Manages, Reports, CanObserve;
    RepairOwns(d.world, d.config);
    OwnsOnward(d.world, d.config, RepairAddresses(d.world, d.config).world);
    hide Owns, Onward, Unchanged;
    ObserveExact(RepairAddresses(d.world, d.config).world, d.config.server.wanInterface, d.config);
    UnchangedOnward(d.world, RepairAddresses(d.world, d.config).world, RepairWorld(d));
  }

  lemma OwnsOnward(w: World, c: Config, w': World)
    requires Owns(w, c, w')
    ensures Onward(w, w') && w'.Valid()
  {
    hide Items;
  }

  lemma {:induction false} RepairedTracked(d: Daemon, e: Daemon)
    requires Steady(d) && ValidConfig(d.config) && d.config.tunnel.enabled
    requires e.world.owned == RepairAddresses(d.world, d.config).world.owned
    requires e.state.applied == d.state.applied && e.stuck == d.stuck && e.dropped == d.dropped
    ensures Tracked(Pruned(e))
  {
    hide World.Valid, RepairAddresses, ValidConfig, InFootprint, Steady, Sound, Coupled;
    SteadyParts(d);
    forall item: Item | Lost(e, item)
      ensures item in e.stuck || item in e.dropped
    {
      RepairLosesNothing(d, item);
    }
    PrunedTracked(e);
  }

  lemma {:induction false} RepairSteadies(d: Daemon)
    requires Steady(d)
    ensures var r := Repair(d);
            && Steady(r.daemon) && Onward(d.world, r.daemon.world)
            && r.daemon.document == d.document && r.daemon.config == d.config && r.daemon.configFile == d.configFile
            && r.daemon.dropped <= d.dropped && r.daemon.stuck <= d.stuck
  {
    hide World.Valid, RepairAddresses, Observe, Sound, Coupled, ValidConfig, Tracked, SaveState, Steady, Onward,
         Unchanged, StateAfterRepair, Lost;
    SteadyParts(d);
    if ValidConfig(d.config) && d.config.tunnel.enabled {
      var r := RepairAddresses(d.world, d.config);
      var o := Observe(r.world, d.config.server.wanInterface, Some(d.config));
      var f := d.(world := o.world, state := StateAfterRepair(d.state, r.err, o));
      var e := Pruned(f);
      RepairWorldKeeps(d);
      RepairedState(d, e, r.err, o);
      UnchangedOwned(r.world, o.world);
      RepairedTracked(d, f);
      SaveStateKeeps(e);
      UnchangedOwned(e.world, SaveState(e).daemon.world);
      UnchangedOnward(d.world, e.world, SaveState(e).daemon.world);
      CoupledSame(e, SaveState(e).daemon);
      TrackedSame(e, SaveState(e).daemon);
      SteadyIntro(SaveState(e).daemon);
    } else {
      RepairSkipped(d);
    }
  }

  lemma RepairSkipped(d: Daemon)
    requires Steady(d)
    ensures Onward(d.world, d.world)
  {
    SteadyParts(d);
    UnchangedRefl(d.world);
    hide World.Valid, Steady, Onward;
  }

  lemma {:induction false} RepairedState(d: Daemon, e: Daemon, err: Option<Failure>, o: Observed)
    requires Coupled(d) && Sound(d.state) && ValidConfig(d.config) && d.config.tunnel.enabled
    requires e.document == d.document && e.config == d.config && e.state == StateAfterRepair(d.state, err, o)
    ensures Coupled(e) && Sound(e.state) && e.state.applied == d.state.applied
  {
    hide Sound, Coupled, ValidConfig, AddFault, ReplaceMissing;
    CoupledFacts(d);
    StateAfterRepairSound(d.state, err, o);
    CoupledStatus(d, e);
  }

  lemma {:induction false} DisturbedSteady(d: Daemon, k: Kernel, later: nat)
    requires Steady(d) && k.Valid()
    ensures Steady(Pruned(d.(world := Disturbed(d.world, k, later))))
  {
    hide Sound, Coupled, InFootprint, Tracked;
    var e := d.(world := Disturbed(d.world, k, later));
    assert e.world.Valid();
    hide World.Valid, Present;
    CoupledSame(d, Pruned(e));
    DisturbedLosesNothing(d, e);
  }

  lemma DisturbedLosesNothing(d: Daemon, e: Daemon)
    requires Tracked(d) && e.world.owned <= d.world.owned
    requires e.state.applied == d.state.applied && e.stuck == d.stuck && e.dropped == d.dropped
    ensures Tracked(Pruned(e))
  {
    hide InFootprint;
    forall item: Item | Lost(e, item)
      ensures item in e.stuck || item in e.dropped
    {
      assert Lost(d, item);
    }
    PrunedTracked(e);
  }

  /** The freshly loaded daemon, before anything is pruned. */
  function Reloaded(d: Daemon, doc: Document, c: Config): Daemon {
    Daemon(doc, c, d.stateFile, None, d.configFile, d.stateFile, d.world, d.stuck, d.dropped + Recorded(d))
  }

  lemma {:induction false} ReloadedSane(d: Daemon, doc: Document, c: Config)
    requires Steady(d) && ActiveConfig(doc) == Some(c)
    ensures Sane(Pruned(Reloaded(d, doc, c)))
  {
    hide World.Valid, Sound, Coupled, InFootprint, ActiveConfig;
    var e := Reloaded(d, doc, c);
    forall item: Item | Lost(e, item)
      ensures item in e.stuck || item in e.dropped
    {
      assert Lost(d, item) || item in Recorded(d);
    }
    PrunedTracked(e);
  }

  lemma {:induction false} RestartSteadies(d: Daemon)
    requires Steady(d)
    ensures Steady(Restarted(d)) && Restarted(d).configFile == d.configFile
  {
    hide Steady, ReconcileLocked, ActiveConfig, ParseDocument, Sane;
    var doc := ParseDocument(d.configFile);
    if doc.Some? && ActiveConfig(doc.value).Some? {
      var e := Pruned(Reloaded(d, doc.value, ActiveConfig(doc.value).value));
      ReloadedSane(d, doc.value, ActiveConfig(doc.value).value);
      ReconcileSteadies(e);
    }
  }

  /** The first start, with whatever state file there is and nothing installed yet, makes a steady daemon. */
  lemma {:induction false} FirstStartSteadies(configFile: Raw, stateFile: State, w: World)
    requires w.Valid() && w.owned == {} && Load(configFile, stateFile, w, {}, {}).Some?
    ensures Steady(ReconcileLocked(Load(configFile, stateFile, w, {}, {}).value).daemon)
  {
    hide Steady, ReconcileLocked, ActiveConfig, ParseDocument, World.Valid, InFootprint;
    var e := Load(configFile, stateFile, w, {}, {}).value;
    assert Sane(e);
    ReconcileSteadies(e);
  }

  lemma {:induction false} ReconcileEventSteadies(d: Daemon)
    requires Steady(d)
    ensures Steady(ReconcileLocked(d).daemon)
    ensures Onward(d.world, ReconcileLocked(d).daemon.world)
  {
    hide Steady, ReconcileLocked, Sane, Onward;
    SteadyParts(d);
    ReconcileSteadies(d);
  }

  lemma {:induction false} UpdateEventSteadies(d: Daemon, proposed: Document)
    requires Steady(d)
    ensures Steady(UpdateConfigDocument(d, proposed).daemon)
    ensures Onward(d.world, UpdateConfigDocument(d, proposed).daemon.world)
  {
    hide Steady, UpdateConfigDocument, SaveDocument, ValidDocument, Onward;
    UpdateIsAtomic(d, proposed);
  }

  /** Being steady has nothing to do with the oracle. */
  lemma {:induction false} SteadyAnyway(d: Daemon, fate: nat -> Fate)
    requires Steady(d)
    ensures Steady(Spared(d, fate))
  {
    hide World.Valid, Tracked, Sound, Coupled;
    SameWorldValid(d.world, fate);
    TrackedSame(d, Spared(d, fate));
    CoupledSame(d, Spared(d, fate));
  }

  lemma SameWorldValid(w: World, fate: nat -> Fate)
    requires w.Valid()
    ensures w.(fate := fate).Valid()
  {
  }

  lemma {:induction false} HappensSteadies(d: Daemon, e: Event)
    requires Steady(d) && Possible(e)
    ensures Steady(Happens(d, e))
    decreases e
  {
    hide Steady, ReconcileLocked, UpdateConfigDocument, WriteBack, Repair, Restarted, Onward, Disturbed, Unchanged, Cut;
    match e
    case Updates(proposed) => UpdateEventSteadies(d, proposed);
    case Reconciles => ReconcileEventSteadies(d);
    case WritesBack(sight) => WriteBackSteadies(d, sight);
    case Repairs => RepairSteadies(d);
    case WorldChanges(k, later) => DisturbedSteady(d, k, later);
    case Restarts => RestartSteadies(d);
    case Dies(doing, after) =>
      SteadyAnyway(d, Cut(d.world.fate, d.world.now + after));
      HappensSteadies(Doomed(d, after), doing);
      SteadyAnyway(Happens(Doomed(d, after), doing), d.world.fate);
      RestartSteadies(Spared(Happens(Doomed(d, after), doing), d.world.fate));
  }

  /** Over every run -- any interleaving of sections, failing commands, failing disk writes, stale health
      checks and proposals, other people's changes to the kernel, the daemon restarting between sections or
      dying in the middle of one -- the memory of the service stays coupled, its status sound, and everything
      it installed accounted for. */
  lemma {:induction false} AlwaysSteady(d: Daemon, es: seq<Event>)
    requires Steady(d) && forall e <- es :: Possible(e)
    ensures Steady(Play(d, es))
    decreases |es|
  {
    hide Steady, Happens, Possible;
    if es != [] {
      HappensSteadies(d, es[0]);
      AlwaysSteady(Happens(d, es[0]), es[1..]);
    }
  }

  lemma FirstTwoDiffer<T>(s: seq<T>)
    requires Distinct(s)
    ensures |s| >= 2 ==> s[0] != s[1]
  {
  }

  lemma OneProbeAtMost(t: seq<Trouble>)
    requires Distinct(t) && OnlyProbe(t)
    ensures t == [] || t == [ProbeFailed]
  {
    hide Distinct;
    FirstTwoDiffer(t);
  }

  /** What ready stands for. */
  predicate ReadyHolds(e: Daemon) {
    && e.document.tunnelEnabled && e.config.tunnel.enabled && ValidConfig(e.config)
    && e.state.applied == BuildApplied(e.config)
    && (e.state.troubles == [] || e.state.troubles == [ProbeFailed])
    && e.state.lastError == First(e.state.troubles)
  }

  lemma SteadyReady(e: Daemon)
    requires Coupled(e) && Sound(e.state) && e.state.phase == Ready
    ensures ReadyHolds(e)
  {
    hide ValidConfig, BuildApplied, ActiveConfig, Distinct, OnlyProbe;
    OneProbeAtMost(e.state.troubles);
  }

  /** Ready is never an overstatement, on any run: the tunnel is wanted, the config valid and applied, and
      the only thing to complain about is at most the health probe. */
  lemma {:induction false} ReadyMeansReady(d: Daemon, es: seq<Event>)
    requires Steady(d) && (forall e <- es :: Possible(e)) && Play(d, es).state.phase == Ready
    ensures ReadyHolds(Play(d, es))
  {
    hide Play, Steady, Coupled, Sound, ReadyHolds, Possible;
    AlwaysSteady(d, es);
    SteadyParts(Play(d, es));
    SteadyReady(Play(d, es));
  }

  /** Everything in the kernel that the daemon ever installed is accounted for, on any run, and exactly: it
      is in the recorded footprint, or else it is on one of the two lists, which hold nothing that is gone
      or recorded again. */
  lemma {:induction false} NothingForgotten(d: Daemon, es: seq<Event>, item: Item)
    requires Steady(d) && forall e <- es :: Possible(e)
    ensures var e := Play(d, es);
            item in e.stuck || item in e.dropped <==> item in e.world.owned && !InFootprint(item, e.state.applied)
  {
    hide Play, Steady, Coupled, Sound, Possible, InFootprint;
    AlwaysSteady(d, es);
    SteadyParts(Play(d, es));
    TrackedExactly(Play(d, es), item);
  }

  lemma TrackedExactly(d: Daemon, item: Item)
    requires Tracked(d)
    ensures item in d.stuck || item in d.dropped <==> item in d.world.owned && !InFootprint(item, d.state.applied)
  {
    hide InFootprint;
    assert Lost(d, item) <==> item in d.world.owned && !InFootprint(item, d.state.applied);
  }

  // ---------------------------------------------------------------- what gets stuck

  /** Stuck are exactly the owned items of the recorded footprint all of whose deletions failed. */
  lemma StuckExactly(w: World, applied: AppliedState, item: Item)
    requires w.Valid()
    ensures item in StuckItems(w, applied) <==>
            item in w.owned && InFootprint(item, applied) && AllDeletionsFail(w.fate, w.now, TeardownScript(applied), item)
    ensures w.Calm() ==> item !in StuckItems(w, applied)
  {
    TeardownReduces(w, applied);
    ReducedValid(w, Teardown(w, applied));
    hide World.Valid, World.Calm, Teardown, InFootprint, AllDeletionsFail, TeardownScript, Onward;
    if item in w.owned {
      TeardownLeaves(w, applied, item);
    }
  }
}
