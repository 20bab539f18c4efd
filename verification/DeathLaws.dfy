/** The daemon dying in the middle of a section: what it leaves, and what can be lost by it. */
module DeathLaws {
  import opened Options
  import opened Kernel
  import opened Config
  import opened Storage
  import opened Backend
  import opened AddressLaws
  import opened TeardownLaws
  import opened OwnershipLaws
  import opened ObserveLaws
  import opened PassLaws
  import opened Daemon
  import opened StatusLaws
  import opened DaemonLaws
  import opened UpdateLaws
  import opened RunLaws
  import opened LeakLaws
  import opened SyncLaws
  import Migration

  // ---------------------------------------------------------------- nothing works any more

  ghost predicate Dead(w: World) {
    forall t: nat {:trigger w.fate(t)} :: t >= w.now ==> w.fate(t).fails
  }

  /** Only time has passed. */
  ghost predicate Still(w: World, w': World) {
    w'.kernel == w.kernel && w'.owned == w.owned && w'.fate == w.fate && w'.now >= w.now
  }

  lemma StillTrans(a: World, b: World, c: World)
    requires Still(a, b) && Still(b, c)
    ensures Still(a, c)
  {
  }

  lemma StillDead(w: World, w': World)
    requires Dead(w) && Still(w, w')
    ensures Dead(w')
  {
  }

  lemma DeadExec(w: World, cmd: Command)
    requires Dead(w)
    ensures !Exec(w, cmd).ok && Exec(w, cmd).world == w.(now := w.now + 1)
    ensures Still(w, Exec(w, cmd).world) && Dead(Exec(w, cmd).world)
  {
    hide Effect, Present, Creates;
  }

  lemma {:induction false} DeadBestEffort(w: World, cs: seq<Command>)
    requires Dead(w)
    ensures Still(w, BestEffort(w, cs)) && Dead(BestEffort(w, cs))
    decreases |cs|
  {
    hide Exec, Dead;
    if cs != [] {
      DeadExec(w, cs[0]);
      DeadBestEffort(Exec(w, cs[0]).world, cs[1..]);
    }
  }

  /** Death in the middle of a command sequence: the kernel is what the commands before it made of it. */
  lemma {:induction false} CutIsPrefix(w: World, cs: seq<Command>, after: nat)
    requires after <= |cs|
    ensures var doomed := BestEffort(w.(fate := Cut(w.fate, w.now + after)), cs); var w' := BestEffort(w, cs[..after]);
            doomed.kernel == w'.kernel && doomed.owned == w'.owned
    decreases |cs|
  {
    var v := w.(fate := Cut(w.fate, w.now + after));
    if after == 0 {
      DeadBestEffort(v, cs);
    } else {
      CutAgrees(w, cs[0], w.now + after);
      assert cs[..after][1..] == cs[1..][..after - 1];
      hide Exec;
      CutIsPrefix(Exec(w, cs[0]).world, cs[1..], after - 1);
    }
  }

  /** Before death nothing is different. */
  lemma CutAgrees(w: World, cmd: Command, t: nat)
    requires w.now < t
    ensures Exec(w.(fate := Cut(w.fate, t)), cmd) == Exec(w, cmd).(world := Exec(w, cmd).world.(fate := Cut(w.fate, t)))
    ensures Exec(w, cmd).world.fate == w.fate && Exec(w, cmd).world.now == w.now + 1
  {
    hide Effect, Present, Creates;
  }

  // ---------------------------------------------------------------- a dead section

  lemma {:induction false} DeadEstablish(w: World, c: Config)
    requires Dead(w)
    ensures Still(w, Establish(w, c).world) && Establish(w, c).err.Some?
  {
    hide Exec, ResolveMTU, BringUp, Dead;
    DeadExec(w, Read(ShowAddr4(c.server.wanInterface)));
  }

  lemma {:induction false} DeadReconcile(w: World, c: Config, valid: bool, applied: AppliedState)
    requires Dead(w)
    ensures Still(w, Reconcile(w, c, valid, applied).world)
  {
    hide Exec, Establish, BestEffort, TeardownScript, Dead;
    DeadBestEffort(w, TeardownScript(applied));
    DeadEstablish(Teardown(w, applied), c);
  }

  /** A daemon in which nothing works any more: kernel and files are as they were. */
  ghost predicate Frozen(d: Daemon, d': Daemon) {
    Still(d.world, d'.world) && d'.configFile == d.configFile && d'.stateFile == d.stateFile
  }

  lemma DeadSaveState(d: Daemon)
    requires Dead(d.world)
    ensures Frozen(d, SaveState(d).daemon) && SaveState(d).err.Some? && Dead(SaveState(d).daemon.world)
  {
  }

  lemma {:induction false} DeadPass(w: World, c: Config, valid: bool, applied: AppliedState)
    requires w.Valid() && Dead(w)
    ensures Still(w, RunPass(w, c, valid, applied).world)
  {
    hide World.Valid, RunPass, Reconcile, Dead;
    PassKeeps(w, c, valid, applied);
    DeadReconcile(w, c, valid, applied);
    OnwardFate(w, RunPass(w, c, valid, applied).world);
    hide Onward;
  }

  lemma OnwardFate(w: World, w': World)
    requires Onward(w, w')
    ensures w'.fate == w.fate && w'.now >= w.now
  {
  }

  lemma {:induction false} DeadReconcileLocked(d: Daemon)
    requires d.world.Valid() && Dead(d.world)
    ensures var r := ReconcileLocked(d); Frozen(d, r.daemon) && r.err.Some? && Dead(r.daemon.world) && r.daemon.world.Valid()
  {
    hide World.Valid, RunPass, StateAfter, StuckItems, ConfigReasons, Lost, SaveState, Dead;
    var p := RunPass(d.world, d.config, ValidConfig(d.config), d.state.applied);
    DeadPass(d.world, d.config, ValidConfig(d.config), d.state.applied);
    StillDead(d.world, p.world);
    DeadSaveState(AfterPass(d, p));
    StillValid(d.world, ReconcileLocked(d).daemon.world);
  }

  lemma StillValid(w: World, w': World)
    requires w.Valid() && Still(w, w')
    ensures w'.Valid()
  {
  }

  lemma {:induction false} DeadRollback(d: Daemon, prior: Daemon)
    requires d.world.Valid() && Dead(d.world)
    ensures Frozen(d, Rollback(d, prior))
  {
    hide World.Valid, ReconcileLocked, SaveState, Lost, Recorded, Dead;
    DeadReconcileLocked(RolledBack(d, prior));
    DeadSaveState(Restored(ReconcileLocked(RolledBack(d, prior)).daemon, prior));
  }

  lemma {:induction false} DeadUpdate(d: Daemon, proposed: Document)
    requires d.world.Valid() && Dead(d.world)
    ensures Frozen(d, UpdateConfigDocument(d, proposed).daemon)
  {
    hide World.Valid, ReconcileLocked, Rollback, ValidDocument, DocumentReasons, Checked, ActiveConfig, SaveConfigFile,
         Dead;
    var doc := Checked(Migration.PreservePort(proposed, d.document));
    if ActiveConfig(doc).Some? {
      var a := Adopt(d, doc, ActiveConfig(doc).value);
      DeadReconcileLocked(a);
      DeadRollback(ReconcileLocked(a).daemon, d);
      StillTrans(d.world, ReconcileLocked(a).daemon.world, Rollback(ReconcileLocked(a).daemon, d).world);
    }
  }

  lemma {:induction false} DeadRepairAddresses(w: World, c: Config)
    requires Dead(w)
    ensures Still(w, RepairAddresses(w, c).world)
  {
    hide Exec, RunAll, RepairNetworks, Dead;
    DeadExec(w, Read(ShowAddr6(TUNNEL)));
  }

  lemma {:induction false} DeadRepair(d: Daemon)
    requires d.world.Valid() && Dead(d.world)
    ensures Frozen(d, Repair(d).daemon)
  {
    hide World.Valid, RepairAddresses, Observe, ValidConfig, SaveState, StateAfterRepair, Lost, Dead, Manages, Reports,
         CanObserve;
    var c := d.config;
    if c.tunnel.enabled {
      var r := RepairAddresses(d.world, c);
      DeadRepairAddresses(d.world, c);
      StillValid(d.world, r.world);
      ObserveExact(r.world, c.server.wanInterface, c);
      var o := Observe(r.world, c.server.wanInterface, Some(c));
      UnchangedStill(r.world, o.world);
      StillTrans(d.world, r.world, o.world);
      StillDead(d.world, o.world);
      var e := Pruned(d.(world := o.world, state := StateAfterRepair(d.state, r.err, o)));
      DeadSaveState(e);
      StillTrans(d.world, e.world, SaveState(e).daemon.world);
    }
  }

  lemma UnchangedStill(w: World, w': World)
    requires Unchanged(w, w')
    ensures Still(w, w')
  {
  }

  lemma {:induction false} DeadRestart(d: Daemon)
    requires d.world.Valid() && Dead(d.world)
    ensures Frozen(d, Restarted(d))
  {
    hide World.Valid, ReconcileLocked, ParseDocument, ActiveConfig, Lost, Recorded, Dead;
    var e := Load(d.configFile, d.stateFile, d.world, d.stuck, d.dropped + Recorded(d));
    if e.Some? {
      DeadReconcileLocked(e.value);
    }
  }

  predicate IsSection(e: Event) {
    !e.WorldChanges? && !e.Dies?
  }

  /** Death is final: from then on a section, whichever it is, leaves kernel and files as they are. */
  lemma {:induction false} DeadSection(d: Daemon, e: Event)
    requires d.world.Valid() && Dead(d.world) && IsSection(e)
    ensures Frozen(d, Happens(d, e))
  {
    hide World.Valid, ReconcileLocked, UpdateConfigDocument, Repair, Restarted, SaveState, StateAfterSight, Dead;
    match e
    case Updates(proposed) => DeadUpdate(d, proposed);
    case Reconciles => DeadReconcileLocked(d);
    case WritesBack(sight) => DeadSaveState(d.(state := StateAfterSight(d.state, sight)));
    case Repairs => DeadRepair(d);
    case Restarts => DeadRestart(d);
  }

  // ---------------------------------------------------------------- what death loses

  /** What death in the middle of a section leaves, before the daemon is started again. */
  function Remains(d: Daemon, doing: Event, after: nat): Daemon {
    Spared(Happens(Doomed(d, after), doing), d.world.fate)
  }

  lemma {:induction false} RemainsSteady(d: Daemon, doing: Event, after: nat)
    requires Steady(d) && Possible(doing)
    ensures Steady(Remains(d, doing, after))
  {
    hide Steady, Happens, Cut, Possible;
    SteadyAnyway(d, Cut(d.world.fate, d.world.now + after));
    HappensSteadies(Doomed(d, after), doing);
    SteadyAnyway(Happens(Doomed(d, after), doing), d.world.fate);
  }

  lemma RemainsRestart(d: Daemon, doing: Event, after: nat)
    ensures Happens(d, Dies(doing, after)) == Restarted(Remains(d, doing, after))
  {
    hide UpdateConfigDocument, ReconcileLocked, WriteBack, Repair, Restarted, Pruned, Disturbed, Cut;
  }

  /** Exactly what is lost when the daemon dies in the middle of a section and is started again: what the
      section had left in the kernel, what the state file and the config in the config file leave there, and
      what is not recorded then. */
  lemma {:induction false} DeathLosesExactly(d: Daemon, doing: Event, after: nat, doc: Document, c: Config, item: Item)
    requires Steady(d) && Possible(doing)
    requires ParseDocument(Remains(d, doing, after).configFile) == Some(doc) && ActiveConfig(doc) == Some(c)
    ensures var r := Remains(d, doing, after); var e := Happens(d, Dies(doing, after)); var a := r.stateFile.applied;
            Lost(e, item) <==>
            && item in r.world.owned
            && SurvivesTeardown(r.world, a, item)
            && !(ValidConfig(c) && c.tunnel.enabled && EstablishTakes(Teardown(r.world, a), c, item))
            && !InFootprint(item, e.state.applied)
  {
    hide Steady, Happens, Restarted, ParseDocument, ActiveConfig, SurvivesTeardown, EstablishTakes, Teardown,
         InFootprint, ValidConfig, Remains, Possible;
    RemainsSteady(d, doing, after);
    RemainsRestart(d, doing, after);
    SteadyParts(Remains(d, doing, after));
    RestartLosesExactly(Remains(d, doing, after), doc, c, item);
  }

  lemma {:induction false} ReconcileLosesNothing(d: Daemon, item: Item)
    requires Steady(d) && ValidConfig(d.config)
    ensures Lost(ReconcileLocked(d).daemon, item) ==> Lost(d, item)
  {
    hide ReconcileLocked, ValidConfig, Leaves, InFootprint, BuildApplied, Tracked, Sound, World.Valid, Loaded;
    AppliedAfterReconcile(d);
    ReconcileLosesExactly(d, item);
  }

  lemma {:induction false} RepairLosesNoItem(d: Daemon, item: Item)
    requires Steady(d) && Lost(Repair(d).daemon, item)
    ensures Lost(d, item)
  {
    hide Steady, World.Valid, RepairAddresses, Observe, ValidConfig, InFootprint, StateAfterRepair, Unchanged;
    SteadyParts(d);
    if ValidConfig(d.config) && d.config.tunnel.enabled {
      RepairWorldKeeps(d);
      UnchangedOwned(RepairAddresses(d.world, d.config).world, RepairWorld(d));
      RepairedApplied(d);
      RepairLosesNothing(d, item);
    }
  }

  lemma RepairedApplied(d: Daemon)
    requires ValidConfig(d.config) && d.config.tunnel.enabled
    ensures Repair(d).daemon.world.owned == RepairWorld(d).owned && Repair(d).daemon.state.applied == d.state.applied
  {
    hide World.Valid, RepairAddresses, Observe, ValidConfig, Lost, AddFault, ReplaceMissing;
  }

  /** Only an update can lose something. With file and memory in sync and the config valid, nothing else
      that can happen to the daemon -- a reconcile, a health check, a repair, a restart, somebody else's
      changes, death in the middle of any of these -- loses an item that was not lost before. */
  lemma {:induction false} OnlyUpdatesLose(d: Daemon, e: Event, item: Item)
    requires Steady(d) && Migration.InSync(StoreOf(d)) && ValidDocument(d.document)
    requires Possible(e) && ProposesStorable(e) && LeavesConfig(e) && Lost(Happens(d, e), item)
    ensures Lost(d, item)
    decreases e
  {
    hide Cut, Steady, ReconcileLocked, UpdateConfigDocument, WriteBack, Repair, Restarted, Migration.InSync, Unchanged,
         ValidDocument, InFootprint, ValidConfig, SurvivesTeardown, EstablishTakes;
    ValidInSync(d);
    match e
    case Reconciles => ReconcileLosesNothing(d, item);
    case WritesBack(sight) =>
      WriteBackSteadies(d, sight);
      UnchangedOwned(d.world, WriteBack(d, sight).daemon.world);
    case Repairs => RepairLosesNoItem(d, item);
    case WorldChanges(k, later) =>
    case Restarts => RestartLosesNothingNew(d, item);
    case Dies(doing, after) =>
      var f := Remains(d, doing, after);
      RemainsSteady(d, doing, after);
      SteadyAnyway(d, Cut(d.world.fate, d.world.now + after));
      HappensInSync(Doomed(d, after), doing);
      HappensStaysValid(Doomed(d, after), doing);
      ValidInSync(f);
      RestartLosesNothingNew(f, item);
      OnlyUpdatesLose(Doomed(d, after), doing, item);
  }
}
