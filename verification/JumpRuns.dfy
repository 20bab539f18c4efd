/** The jumps to the managed chains over whole runs of the service. */
module JumpRuns {
  import opened Kernel
  import opened Config
  import opened Storage
  import opened Backend
  import opened AddressLaws
  import opened FirewallLaws
  import opened JumpLaws
  import opened ObserveLaws
  import opened RepairLaws
  import opened PassLaws
  import opened Daemon
  import opened DaemonLaws
  import opened RunLaws
  import Migration
  import Spec = Daemon

  // ---------------------------------------------------------------- one reconcile

  /** The reconcile leaves a second jump to the chain: there was one, the command to remove it fails, the check
      for it fails too, and the insertion works. */
  predicate Doubles(w: World, c: Config, valid: bool, applied: AppliedState, x: Chain) {
    && valid && c.tunnel.enabled && Reconcile(w, c, valid, applied).err.None?
    && w.kernel.fw.jumps[x] == 1
    && w.fate(w.now + DeletionInstant(x)).fails
    && w.fate(CheckInstant(w, c, applied, x)).fails
    && !w.fate(CheckInstant(w, c, applied, x) + 1).fails
  }

  lemma {:induction false} ReconcileDoublesIff(w: World, c: Config, valid: bool, applied: AppliedState, x: Chain)
    requires w.Valid() && w.kernel.fw.jumps[x] <= 1
    ensures Reconcile(w, c, valid, applied).world.kernel.fw.jumps[x] > 1 <==> Doubles(w, c, valid, applied, x)
  {
    hide World.Valid, Reconcile, DeletionInstant, CheckInstant;
    if valid && c.tunnel.enabled && Reconcile(w, c, valid, applied).err.None? {
      SecondJumpIff(w, c, applied, x);
    } else {
      NoJumpAdded(w, c, valid, applied, x);
    }
  }

  /** The daemon's next reconcile does so. */
  predicate DoublesIn(d: Daemon, x: Chain) {
    Doubles(d.world, d.config, ValidConfig(d.config), d.state.applied, x)
  }

  lemma {:induction false} LockedDoublesIff(d: Daemon, x: Chain)
    requires d.world.Valid()
    ensures Onward(d.world, ReconcileLocked(d).daemon.world)
    ensures d.world.kernel.fw.jumps[x] <= 1 ==>
              (ReconcileLocked(d).daemon.world.kernel.fw.jumps[x] > 1 <==> DoublesIn(d, x))
  {
    hide World.Valid, RunPass, Reconcile, StateAfter, StuckItems, ConfigReasons, Lost, Onward, PassFault, Doubles,
         Spec.SaveState;
    var p := RunPass(d.world, d.config, ValidConfig(d.config), d.state.applied);
    PassKeeps(d.world, d.config, ValidConfig(d.config), d.state.applied);
    PassWorldValid(d.world, p.world);
    SaveStateKeeps(AfterPass(d, p));
    UnchangedOnward(d.world, p.world, ReconcileLocked(d).daemon.world);
    UnchangedOwned(p.world, ReconcileLocked(d).daemon.world);
    if d.world.kernel.fw.jumps[x] <= 1 {
      ReconcileDoublesIff(d.world, d.config, ValidConfig(d.config), d.state.applied, x);
    }
  }

  // ---------------------------------------------------------------- the reconciles of an event

  /** The daemons in which the update reconciles: with the new document, and with the old one again if it is
      rolled back. */
  function UpdateReconciles(d: Daemon, proposed: Document): seq<Daemon> {
    var next := Migration.PreservePort(proposed, d.document);
    if !ValidDocument(next) || ActiveConfig(Checked(next)).None? then []
    else
      var a := Adopt(d, Checked(next), ActiveConfig(Checked(next)).value);
      var r := ReconcileLocked(a);
      var s := SaveConfigFile(r.daemon);
      if r.err.Some? then [a, RolledBack(r.daemon, d)] else if s.err.Some? then [a, RolledBack(s.daemon, d)] else [a]
  }

  function RestartReconciles(d: Daemon): seq<Daemon> {
    var e := Load(d.configFile, d.stateFile, d.world, d.stuck, d.dropped + Recorded(d));
    if e.Some? then [e.value] else []
  }

  /** The daemons in which an event reconciles, in order. */
  function Reconciliations(d: Daemon, e: Event): seq<Daemon>
    decreases e
  {
    match e
    case Updates(proposed) => UpdateReconciles(d, proposed)
    case Reconciles => [d]
    case Restarts => RestartReconciles(d)
    case Dies(doing, after) =>
      Reconciliations(Doomed(d, after), doing)
      + RestartReconciles(Spared(Happens(Doomed(d, after), doing), d.world.fate))
    case _ => []
  }

  ghost predicate NoneDoubles(ds: seq<Daemon>, x: Chain) {
    forall i :: 0 <= i < |ds| ==> !DoublesIn(ds[i], x)
  }

  lemma NoneDoublesSplit(a: seq<Daemon>, b: seq<Daemon>, x: Chain)
    requires NoneDoubles(a + b, x)
    ensures NoneDoubles(a, x) && NoneDoubles(b, x)
  {
    hide DoublesIn;
    forall i | 0 <= i < |a|
      ensures !DoublesIn(a[i], x)
    {
      assert (a + b)[i] == a[i];
    }
    forall i | 0 <= i < |b|
      ensures !DoublesIn(b[i], x)
    {
      assert (a + b)[|a| + i] == b[i];
    }
  }

  /** At most one jump to the chain. */
  ghost predicate One(d: Daemon, x: Chain) {
    d.world.Valid() && d.world.kernel.fw.jumps[x] <= 1
  }

  /** Nobody else puts a second jump there. */
  ghost predicate Fair(e: Event, x: Chain)
    decreases e
  {
    (e.WorldChanges? ==> e.kernel.Valid() && e.kernel.fw.jumps[x] <= 1) && (e.Dies? ==> Fair(e.doing, x))
  }

  lemma {:induction false} LockedKeepsOne(d: Daemon, x: Chain)
    requires One(d, x) && !DoublesIn(d, x)
    ensures One(ReconcileLocked(d).daemon, x)
  {
    hide World.Valid, ReconcileLocked, DoublesIn;
    LockedDoublesIff(d, x);
    OnwardValidOnly(d.world, ReconcileLocked(d).daemon.world);
  }

  lemma OnwardValidOnly(w: World, w': World)
    requires Onward(w, w')
    ensures w'.Valid()
  {
  }

  lemma OneSame(d: Daemon, d': Daemon, x: Chain)
    requires One(d, x) && d'.world == Wait(d.world)
    ensures One(d', x)
  {
    hide Present;
  }

  lemma {:induction false} RollbackKeepsOne(d: Daemon, prior: Daemon, x: Chain)
    requires One(d, x) && !DoublesIn(RolledBack(d, prior), x)
    ensures One(Rollback(d, prior), x)
  {
    hide World.Valid, ReconcileLocked, DoublesIn, Lost, Recorded;
    var b := RolledBack(d, prior);
    LockedKeepsOne(b, x);
    var r := ReconcileLocked(b);
    OneSame(r.daemon, SaveState(Spec.Restored(r.daemon, prior)).daemon, x);
  }

  lemma {:induction false} UpdateKeepsOne(d: Daemon, proposed: Document, x: Chain)
    requires One(d, x) && NoneDoubles(UpdateReconciles(d, proposed), x)
    ensures One(UpdateConfigDocument(d, proposed).daemon, x)
  {
    hide World.Valid, ReconcileLocked, Rollback, RolledBack, ValidDocument, DocumentReasons, Checked, ActiveConfig,
         DoublesIn, SaveDocument;
    var ds := UpdateReconciles(d, proposed);
    if ds != [] {
      var r := ReconcileLocked(ds[0]);
      assert !DoublesIn(ds[0], x);
      LockedKeepsOne(ds[0], x);
      var s := SaveConfigFile(r.daemon);
      if r.err.Some? {
        assert !DoublesIn(ds[1], x);
        RollbackKeepsOne(r.daemon, d, x);
      } else {
        SavedKeepsOne(r.daemon, x);
        if s.err.Some? {
          assert !DoublesIn(ds[1], x);
          RollbackKeepsOne(s.daemon, d, x);
        }
      }
    }
  }

  lemma SavedKeepsOne(d: Daemon, x: Chain)
    requires One(d, x)
    ensures One(SaveConfigFile(d).daemon, x)
  {
    hide SaveDocument, DocumentReasons, World.Valid;
    if SaveDocument(d.document).Some? {
      OneSame(d, SaveConfigFile(d).daemon, x);
    }
  }

  lemma {:induction false} RestartKeepsOne(d: Daemon, x: Chain)
    requires One(d, x) && NoneDoubles(RestartReconciles(d), x)
    ensures One(Restarted(d), x)
  {
    hide World.Valid, ReconcileLocked, ParseDocument, ActiveConfig, Lost, Recorded, DoublesIn;
    var ds := RestartReconciles(d);
    if ds != [] {
      assert !DoublesIn(ds[0], x);
      LockedKeepsOne(ds[0], x);
    }
  }

  lemma {:induction false} RepairKeepsOne(d: Daemon, x: Chain)
    requires One(d, x)
    ensures One(Repair(d).daemon, x)
  {
    hide World.Valid, RepairAddresses, Observe, ValidConfig, StateAfterRepair, Lost, Unchanged, AddressesOnly,
         Spec.SaveState;
    if ValidConfig(d.config) && d.config.tunnel.enabled {
      RepairWorldKeeps(d);
      RepairFrames(d.world, d.config);
      OnwardValidOnly(d.world, RepairWorld(d));
      RepairTouchesNoFirewall(d);
      var e := Pruned(d.(world := RepairWorld(d), state := Repair(d).daemon.state));
      RepairedWorld(d);
      OneSame(e, Repair(d).daemon, x);
    }
  }

  lemma RepairedWorld(d: Daemon)
    requires ValidConfig(d.config) && d.config.tunnel.enabled
    ensures Repair(d).daemon.world == Wait(RepairWorld(d))
  {
    hide World.Valid, RepairAddresses, Observe, ValidConfig, StateAfterRepair, Lost;
  }

  lemma {:induction false} RepairTouchesNoFirewall(d: Daemon)
    requires d.world.Valid() && d.config.tunnel.enabled
    ensures RepairWorld(d).kernel.fw == d.world.kernel.fw
  {
    hide World.Valid, RepairAddresses, Observe;
    RepairWorldKeeps(d);
    RepairFrames(d.world, d.config);
    UnchangedOwned(RepairAddresses(d.world, d.config).world, RepairWorld(d));
    hide Onward, Unchanged;
  }

  /** An event raises a chain from at most one jump to two only by a reconcile in it that doubles the jump. */
  lemma {:induction false} HappensKeepsOne(d: Daemon, e: Event, x: Chain)
    requires One(d, x) && Fair(e, x) && NoneDoubles(Reconciliations(d, e), x)
    ensures One(Happens(d, e), x)
    decreases e
  {
    hide World.Valid, ReconcileLocked, UpdateConfigDocument, UpdateReconciles, RestartReconciles, Repair, Restarted,
         DoublesIn, Lost, Cut, StateAfterSight;
    match e
    case Updates(proposed) => UpdateKeepsOne(d, proposed, x);
    case Reconciles =>
      assert !DoublesIn(Reconciliations(d, e)[0], x);
      LockedKeepsOne(d, x);
    case WritesBack(sight) => OneSame(d, Happens(d, e), x);
    case Repairs => RepairKeepsOne(d, x);
    case WorldChanges(k, later) => DisturbedIsOne(d, k, later, x);
    case Restarts => RestartKeepsOne(d, x);
    case Dies(doing, after) =>
      var f := Happens(Doomed(d, after), doing);
      NoneDoublesSplit(Reconciliations(Doomed(d, after), doing), RestartReconciles(Spared(f, d.world.fate)), x);
      SameWorldValid(d.world, Cut(d.world.fate, d.world.now + after));
      HappensKeepsOne(Doomed(d, after), doing, x);
      SameWorldValid(f.world, d.world.fate);
      RestartKeepsOne(Spared(f, d.world.fate), x);
  }

  lemma DisturbedIsOne(d: Daemon, k: Kernel, later: nat, x: Chain)
    requires d.world.Valid() && k.Valid() && k.fw.jumps[x] <= 1
    ensures One(Happens(d, WorldChanges(k, later)), x)
  {
    hide Lost, Kernel.Valid, Present;
  }

  // ---------------------------------------------------------------- whole runs

  /** On the run no reconcile doubles the jump. */
  ghost predicate NeverDoubles(d: Daemon, es: seq<Event>, x: Chain)
    decreases |es|
  {
    es != [] ==> NoneDoubles(Reconciliations(d, es[0]), x) && NeverDoubles(Happens(d, es[0]), es[1..], x)
  }

  /** Over every run, whatever fails in it: a chain that starts with at most one jump has at most one at the
      end, unless some reconcile on the way met the exact condition for doubling it. */
  lemma {:induction false} PlayKeepsOneJump(d: Daemon, es: seq<Event>, x: Chain)
    requires One(d, x) && (forall e <- es :: Fair(e, x)) && NeverDoubles(d, es, x)
    ensures One(Play(d, es), x)
    decreases |es|
  {
    hide One, Happens, Fair, Reconciliations;
    if es != [] {
      HappensKeepsOne(d, es[0], x);
      PlayKeepsOneJump(Happens(d, es[0]), es[1..], x);
    }
  }

  // ---------------------------------------------------------------- when nothing fails, and when the daemon dies

  /** Once something fails nothing works any more. This is so if nothing fails at all, and if nothing fails
      until the daemon dies. */
  ghost predicate Settled(w: World) {
    forall i: nat, j: nat {:trigger w.fate(i), w.fate(j)} :: w.now <= i <= j && w.fate(i).fails ==> w.fate(j).fails
  }

  ghost predicate Later(w: World, w': World) {
    w'.Valid() && w'.fate == w.fate && w'.now >= w.now
  }

  lemma CalmIsSettled(w: World)
    requires w.Calm()
    ensures Settled(w)
  {
  }

  lemma SettledLater(w: World, w': World)
    requires Settled(w) && Later(w, w')
    ensures Settled(w')
  {
    hide World.Valid;
  }

  lemma CutIsSettled(w: World, t: nat)
    requires Settled(w) && t >= w.now
    ensures Settled(w.(fate := Cut(w.fate, t)))
  {
  }

  lemma LaterTrans(a: World, b: World, c: World)
    requires Later(a, b) && Later(b, c)
    ensures Later(a, c)
  {
    hide World.Valid;
  }

  lemma OnwardLater(w: World, w': World)
    requires Onward(w, w')
    ensures Later(w, w')
  {
    hide World.Valid, World.Calm;
  }

  lemma WaitLater(w: World)
    requires w.Valid()
    ensures Later(w, Wait(w))
  {
    hide Present;
  }

  /** In a settled world a jump cannot be doubled: the insertion comes after the check that failed. */
  lemma {:induction false} SettledDoublesNot(d: Daemon, x: Chain)
    requires d.world.Valid() && Settled(d.world)
    ensures !DoublesIn(d, x)
  {
    hide World.Valid, Reconcile, DeletionInstant, CheckInstant, ConfigReasons;
    var valid := ValidConfig(d.config);
    if valid && d.config.tunnel.enabled && Reconcile(d.world, d.config, valid, d.state.applied).err.None? {
      CheckIsLater(d.world, d.config, d.state.applied, x);
    }
  }

  lemma {:induction false} LockedLater(d: Daemon)
    requires d.world.Valid()
    ensures Later(d.world, ReconcileLocked(d).daemon.world)
  {
    hide World.Valid, ReconcileLocked, DoublesIn;
    LockedDoublesIff(d, InputChain);
    OnwardLater(d.world, ReconcileLocked(d).daemon.world);
  }

  lemma {:induction false} RollbackLater(d: Daemon, prior: Daemon)
    requires d.world.Valid()
    ensures Later(d.world, Rollback(d, prior).world)
  {
    hide World.Valid, ReconcileLocked, Lost, Recorded, Later;
    var b := RolledBack(d, prior);
    var r := ReconcileLocked(b);
    LockedLater(b);
    LaterValid(b.world, r.daemon.world);
    WaitLater(r.daemon.world);
    LaterTrans(b.world, r.daemon.world, Wait(r.daemon.world));
  }

  lemma LaterValid(w: World, w': World)
    requires Later(w, w')
    ensures w'.Valid()
  {
  }

  lemma SavedLater(d: Daemon)
    requires d.world.Valid()
    ensures Later(d.world, SaveConfigFile(d).daemon.world)
  {
    hide SaveDocument, DocumentReasons, World.Valid;
    WaitLater(d.world);
  }

  /** Where an update has got to when it rolls back, or ends. */
  lemma {:induction false} UpdateLater(d: Daemon, proposed: Document)
    requires d.world.Valid()
    ensures Later(d.world, UpdateConfigDocument(d, proposed).daemon.world)
    ensures forall i :: 0 <= i < |UpdateReconciles(d, proposed)| ==> Later(d.world, UpdateReconciles(d, proposed)[i].world)
  {
    hide World.Valid, ReconcileLocked, Rollback, ValidDocument, DocumentReasons, Checked, ActiveConfig, SaveConfigFile,
         Later, Lost, Recorded;
    LaterRefl(d.world);
    var ds := UpdateReconciles(d, proposed);
    if ds != [] {
      var r := ReconcileLocked(ds[0]);
      LockedLater(ds[0]);
      LaterValid(d.world, r.daemon.world);
      var s := SaveConfigFile(r.daemon);
      SavedLater(r.daemon);
      LaterTrans(d.world, r.daemon.world, s.daemon.world);
      LaterValid(d.world, s.daemon.world);
      RollbackLater(r.daemon, d);
      RollbackLater(s.daemon, d);
      LaterTrans(d.world, r.daemon.world, Rollback(r.daemon, d).world);
      LaterTrans(d.world, s.daemon.world, Rollback(s.daemon, d).world);
    }
  }

  lemma LaterRefl(w: World)
    requires w.Valid()
    ensures Later(w, w)
  {
  }

  lemma {:induction false} RestartLater(d: Daemon)
    requires d.world.Valid()
    ensures Later(d.world, Restarted(d).world)
    ensures forall i :: 0 <= i < |RestartReconciles(d)| ==> RestartReconciles(d)[i].world == d.world
  {
    hide World.Valid, ReconcileLocked, ParseDocument, ActiveConfig, Lost, Recorded, Later;
    LaterRefl(d.world);
    if RestartReconciles(d) != [] {
      LockedLater(RestartReconciles(d)[0]);
    }
  }

  lemma {:induction false} RepairLater(d: Daemon)
    requires d.world.Valid()
    ensures Later(d.world, Repair(d).daemon.world)
  {
    hide World.Valid, Repair, Observe, ValidConfig, Later, RepairAddresses;
    LaterRefl(d.world);
    if ValidConfig(d.config) && d.config.tunnel.enabled {
      RepairWorldKeeps(d);
      OnwardLater(d.world, RepairWorld(d));
      LaterValid(d.world, RepairWorld(d));
      WaitLater(RepairWorld(d));
      RepairedWorld(d);
      LaterTrans(d.world, RepairWorld(d), Wait(RepairWorld(d)));
    } else {
      NoRepair(d);
    }
  }

  lemma NoRepair(d: Daemon)
    requires !(ValidConfig(d.config) && d.config.tunnel.enabled)
    ensures Repair(d).daemon == d
  {
    hide ValidConfig;
  }

  lemma SparedLater(w: World, w': World, fate: nat -> Fate)
    requires w'.Valid() && w'.now >= w.now && fate == w.fate
    ensures Later(w, w'.(fate := fate))
  {
  }

  lemma DisturbedLater(w: World, k: Kernel, later: nat)
    requires w.Valid() && k.Valid()
    ensures Later(w, Disturbed(w, k, later))
  {
    hide Kernel.Valid, Present;
  }

  lemma {:induction false} HappensLater(d: Daemon, e: Event)
    requires d.world.Valid() && Possible(e)
    ensures Later(d.world, Happens(d, e).world)
    decreases e
  {
    hide World.Valid, ReconcileLocked, UpdateConfigDocument, Repair, Restarted, Lost, Cut, StateAfterSight, Disturbed,
         Kernel.Valid;
    match e
    case Updates(proposed) => UpdateLater(d, proposed);
    case Reconciles => LockedLater(d);
    case WritesBack(sight) => WaitLater(d.world);
    case Repairs => RepairLater(d);
    case WorldChanges(k, later) => DisturbedLater(d.world, k, later);
    case Restarts => RestartLater(d);
    case Dies(doing, after) =>
      var f := Happens(Doomed(d, after), doing);
      SameWorldValid(d.world, Cut(d.world.fate, d.world.now + after));
      HappensLater(Doomed(d, after), doing);
      SparedLater(d.world, f.world, d.world.fate);
      RestartLater(Spared(f, d.world.fate));
      LaterTrans(d.world, Spared(f, d.world.fate).world, Restarted(Spared(f, d.world.fate)).world);
  }

  /** In a settled world no reconcile of an event doubles a jump. */
  lemma {:induction false} SettledNone(d: Daemon, e: Event, x: Chain)
    requires d.world.Valid() && Settled(d.world) && Possible(e)
    ensures NoneDoubles(Reconciliations(d, e), x)
    decreases e
  {
    hide World.Valid, ReconcileLocked, Restarted, DoublesIn, Settled, Cut, Later, Kernel.Valid, UpdateReconciles,
         RestartReconciles, UpdateConfigDocument, Repair;
    match e {
      case Updates(proposed) =>
        UpdateLater(d, proposed);
        var ds := UpdateReconciles(d, proposed);
        forall i | 0 <= i < |ds|
          ensures !DoublesIn(ds[i], x)
        {
          SettledLater(d.world, ds[i].world);
          LaterValid(d.world, ds[i].world);
          SettledDoublesNot(ds[i], x);
        }
      case Reconciles => SettledDoublesNot(d, x);
      case Restarts => SettledRestart(d, x);
      case Dies(doing, after) =>
        var f := Happens(Doomed(d, after), doing);
        var t := d.world.now + after;
        SameWorldValid(d.world, Cut(d.world.fate, t));
        CutIsSettled(d.world, t);
        SettledNone(Doomed(d, after), doing, x);
        HappensLater(Doomed(d, after), doing);
        LaterValid(Doomed(d, after).world, f.world);
        LaterNow(Doomed(d, after).world, f.world);
        SparedLater(d.world, f.world, d.world.fate);
        SettledLater(d.world, Spared(f, d.world.fate).world);
        LaterValid(d.world, Spared(f, d.world.fate).world);
        SettledRestart(Spared(f, d.world.fate), x);
        NoneDoublesJoin(Reconciliations(Doomed(d, after), doing), RestartReconciles(Spared(f, d.world.fate)), x);
      case _ =>
    }
  }

  lemma LaterNow(w: World, w': World)
    requires Later(w, w')
    ensures w'.now >= w.now
  {
  }

  lemma NoneDoublesJoin(a: seq<Daemon>, b: seq<Daemon>, x: Chain)
    requires NoneDoubles(a, x) && NoneDoubles(b, x)
    ensures NoneDoubles(a + b, x)
  {
    hide DoublesIn;
  }

  lemma {:induction false} SettledRestart(d: Daemon, x: Chain)
    requires d.world.Valid() && Settled(d.world)
    ensures NoneDoubles(RestartReconciles(d), x)
  {
    hide World.Valid, Restarted, DoublesIn, Settled, RestartReconciles;
    RestartLater(d);
    var ds := RestartReconciles(d);
    forall i | 0 <= i < |ds|
      ensures !DoublesIn(ds[i], x)
    {
      SettledDoublesNot(ds[i], x);
    }
  }

  lemma {:induction false} SettledNever(d: Daemon, es: seq<Event>, x: Chain)
    requires d.world.Valid() && Settled(d.world) && forall e <- es :: Possible(e)
    ensures NeverDoubles(d, es, x) && Later(d.world, Play(d, es).world)
    decreases |es|
  {
    hide World.Valid, Settled, Later, Happens, Possible, NoneDoubles, Reconciliations;
    if es == [] {
      LaterRefl(d.world);
    } else {
      var f := Happens(d, es[0]);
      SettledNone(d, es[0], x);
      HappensLater(d, es[0]);
      LaterValid(d.world, f.world);
      SettledLater(d.world, f.world);
      SettledNever(f, es[1..], x);
      LaterTrans(d.world, f.world, Play(f, es[1..]).world);
    }
  }

  /** Over every run on which nothing fails without reason -- updates, rollbacks, repairs, health checks,
      restarts, and the daemon dying in the middle of any of them -- no chain ever gets a second jump. */
  lemma {:induction false} UndisturbedRunKeepsOneJump(d: Daemon, es: seq<Event>, x: Chain)
    requires d.world.Valid() && Settled(d.world) && d.world.kernel.fw.jumps[x] <= 1
    requires forall e <- es :: Possible(e) && Fair(e, x)
    ensures Play(d, es).world.kernel.fw.jumps[x] <= 1
    ensures Later(d.world, Play(d, es).world)
  {
    hide World.Valid, Settled, Later, Happens, Possible, Fair, Play, NeverDoubles;
    SettledNever(d, es, x);
    PlayKeepsOneJump(d, es, x);
  }

  /** So after every such run of a calm world, the next reconcile leaves each managed chain with exactly its
      rules and one jump, or none at all. */
  lemma {:induction false} CalmRunExact(d: Daemon, es: seq<Event>)
    requires d.world.Valid() && d.world.Calm() && AtMost(d.world.kernel.fw, 1)
    requires forall e <- es :: Possible(e) && forall x: Chain :: Fair(e, x)
    ensures var e := Play(d, es); var valid := ValidConfig(e.config);
            var r := Reconcile(e.world, e.config, valid, e.state.applied); var f := r.world.kernel.fw;
            var up := valid && e.config.tunnel.enabled && r.err.None?;
            && (up ==> forall x: Chain :: ChainIs(f, x, e.config.server.wanInterface, 1))
            && (!up ==> forall x: Chain :: x !in f.chains && f.jumps[x] == 0)
  {
    hide World.Valid, Settled, Happens, Possible, Fair, Play, Reconcile, ValidConfig, ChainIs;
    CalmIsSettled(d.world);
    var e := Play(d, es);
    forall x: Chain
      ensures e.world.kernel.fw.jumps[x] <= 1 && Later(d.world, e.world)
    {
      UndisturbedRunKeepsOneJump(d, es, x);
    }
    assert Later(d.world, e.world) by {
      UndisturbedRunKeepsOneJump(d, es, InputChain);
    }
    FirewallExact(e.world, e.config, ValidConfig(e.config), e.state.applied);
  }
}
