/** The firewall over whole reconciles, and how many jumps a parent chain can collect. */
module JumpLaws {
  import opened Kernel
  import opened Config
  import opened Backend
  import opened AddressLaws
  import opened TeardownLaws
  import opened FirewallLaws
  import opened LinkLaws
  import opened ReconcileLaws

  // ---------------------------------------------------------------- nothing failing

  lemma BringUpFirewall(w: World, c: Config, wan4: string)
    requires w.Valid() && w.Calm()
    ensures BringUp(w, c, wan4).world.kernel.fw
         == if BringUp(w, c, wan4).err.None? then InstalledAll(w.kernel.fw, c.server.wanInterface) else w.kernel.fw
  {
    hide World.Valid, BringUpLink, BringUpAddresses, BringUpRoute, FirewallUp, World.Calm, InstalledAll;
    var l := BringUpLink(w, c, wan4);
    BringUpLinkFrame(w, c, wan4);
    LinkFrameValid(w, c, l.world);
    if l.err.None? {
      var a := BringUpAddresses(l.world, c);
      BringUpAddressesFrame(l.world, c);
      AddressesFrameValid(l.world, c, a.world);
      OnwardTrans(w, l.world, a.world);
      if a.err.None? {
        var r := BringUpRoute(a.world, c);
        BringUpRouteFrame(a.world, c);
        OnwardTrans(w, a.world, r.world);
        OnwardValid(w, r.world);
        if r.err.None? {
          CalmFirewallUp(r.world, c.server.wanInterface);
        }
      }
    }
    hide Onward, OnlyLink;
  }

  lemma EstablishFirewall(w: World, c: Config)
    requires w.Valid() && w.Calm()
    ensures var r := Establish(w, c);
            r.world.kernel.fw == if r.err.None? then InstalledAll(w.kernel.fw, c.server.wanInterface) else w.kernel.fw
  {
    hide World.Valid, ReadWAN4, ResolveMTU, BringUp, World.Calm, SameSurroundings, InstalledAll;
    var wan := c.server.wanInterface;
    var ip := ReadWAN4(w, wan);
    ReadWAN4Reads(w, wan);
    OnwardValid(w, ip.world);
    if ip.value.Some? {
      var mtu := ResolveMTU(ip.world, c.tunnel.mtu, wan);
      ResolveMTUReads(ip.world, c.tunnel.mtu, wan);
      OnwardValid(ip.world, mtu.world);
      if mtu.value.Some? {
        BringUpFirewall(mtu.world, WithMTU(c, mtu.value.value), ip.value.value);
      }
    }
    hide Onward;
  }

  /** The firewall after a whole reconcile in which no command fails without reason: rebuilt if it
      established the tunnel, torn down if there was none to establish or it failed. */
  lemma ReconcileFirewall(w: World, c: Config, valid: bool, applied: AppliedState)
    requires w.Valid() && w.Calm()
    ensures var r := Reconcile(w, c, valid, applied); var f := RemovedAll(w.kernel.fw);
            r.world.kernel.fw == if valid && c.tunnel.enabled && r.err.None? then InstalledAll(f, c.server.wanInterface) else f
  {
    var down := Teardown(w, applied);
    TeardownReduces(w, applied);
    ReducedValid(w, down);
    OnwardValid(w, down);
    CalmTeardownFirewall(w, applied);
    hide World.Valid, World.Calm, Teardown, Establish, Reduced, InstalledAll, RemovedAll;
    EstablishFirewall(down, c);
  }

  ghost predicate AtMost(f: Firewall, n: nat) {
    forall c: Chain :: f.jumps[c] <= n
  }

  /** Exactness. Starting from at most one jump per parent chain, and with nothing failing without
      reason: an established reconcile leaves every managed chain with exactly its rules and exactly
      one jump, whatever it held before; any other reconcile leaves no managed chain and no jump. */
  lemma FirewallExact(w: World, c: Config, valid: bool, applied: AppliedState)
    requires w.Valid() && w.Calm() && AtMost(w.kernel.fw, 1)
    ensures var r := Reconcile(w, c, valid, applied); var f := r.world.kernel.fw;
            && AtMost(f, 1)
            && (valid && c.tunnel.enabled && r.err.None? ==> forall d: Chain :: ChainIs(f, d, c.server.wanInterface, 1))
            && (!(valid && c.tunnel.enabled && r.err.None?) ==> forall d: Chain :: d !in f.chains && f.jumps[d] == 0)
  {
    ReconcileFirewall(w, c, valid, applied);
    RebuiltFirewall(w.kernel.fw, c.server.wanInterface);
    hide World.Valid, World.Calm, Reconcile, InstalledAll, RemovedAll, RulesOf;
    var f := Reconcile(w, c, valid, applied).world.kernel.fw;
    forall d: Chain
      ensures f.jumps[d] <= 1
      ensures !(valid && c.tunnel.enabled && Reconcile(w, c, valid, applied).err.None?) ==> d !in f.chains && f.jumps[d] == 0
      ensures valid && c.tunnel.enabled && Reconcile(w, c, valid, applied).err.None? ==> ChainIs(f, d, c.server.wanInterface, 1)
    {
      RemovedAllChains(w.kernel.fw, d);
      assert ChainIs(InstalledAll(RemovedAll(w.kernel.fw), c.server.wanInterface), d, c.server.wanInterface, Max(Less(w.kernel.fw.jumps[d]), 1));
    }
  }

  /** Reconciling once more, with nothing failing without reason, leaves the firewall as it is, exactly if
      no parent chain had more than two jumps to a managed chain at the start. */
  lemma {:induction false} FirewallIdempotentIff(w: World, c: Config, applied: AppliedState, c': Config, applied': AppliedState)
    requires w.Valid() && w.Calm() && c.tunnel.enabled && c'.tunnel.enabled
    requires c'.server.wanInterface == c.server.wanInterface
    requires Reconcile(w, c, true, applied).err.None?
    requires Reconcile(Reconcile(w, c, true, applied).world, c', true, applied').err.None?
    ensures var r := Reconcile(w, c, true, applied); var r' := Reconcile(r.world, c', true, applied');
            r'.world.kernel.fw == r.world.kernel.fw <==> AtMost(w.kernel.fw, 2)
  {
    var w1 := Reconcile(w, c, true, applied).world;
    ReconcileOnward(w, c, true, applied);
    OnwardValid(w, w1);
    hide World.Valid, World.Calm, Reconcile, InstalledAll, RemovedAll;
    ReconcileFirewall(w, c, true, applied);
    ReconcileFirewall(w1, c', true, applied');
    RebuildIdempotentIff(w.kernel.fw, c.server.wanInterface);
  }

  // ---------------------------------------------------------------- with failures: how jumps collect

  /** The command does not touch the jumps to this chain. */
  predicate SparesJump(cmd: Command, d: Chain) {
    cmd.Tables? && (cmd.firewall.DeleteJump? || cmd.firewall.InsertJump?) ==> cmd.firewall.chain != d
  }

  lemma ExecSparesJump(w: World, cmd: Command, d: Chain)
    requires SparesJump(cmd, d)
    ensures Exec(w, cmd).world.kernel.fw.jumps[d] == w.kernel.fw.jumps[d]
  {
    hide NetworkEffect;
  }

  lemma {:induction false} BestEffortSparesJump(w: World, cs: seq<Command>, d: Chain)
    requires forall cmd <- cs :: SparesJump(cmd, d)
    ensures var w' := BestEffort(w, cs);
            w'.kernel.fw.jumps[d] == w.kernel.fw.jumps[d] && w'.now == w.now + |cs| && w'.fate == w.fate
    decreases |cs|
  {
    hide Exec, SparesJump;
    if cs != [] {
      ExecSparesJump(w, cs[0], d);
      ExecTicks(w, cs[0]);
      BestEffortSparesJump(Exec(w, cs[0]).world, cs[1..], d);
    }
  }

  lemma DeleteJumpExact(w: World, d: Chain)
    ensures Exec(w, Tables(DeleteJump(d))).world.kernel.fw.jumps[d]
         == if w.fate(w.now).fails then w.kernel.fw.jumps[d] else Less(w.kernel.fw.jumps[d])
  {
  }

  /** How long after its start a teardown removes the jump to a chain. */
  function DeletionInstant(d: Chain): nat {
    match d
    case InputChain => 0
    case ForwardChain => 3
    case MssChain => 6
  }

  lemma TablesSpare(cs: seq<Command>, d: Chain)
    requires NoTables(cs)
    ensures forall cmd <- cs :: SparesJump(cmd, d)
  {
  }

  function ChainTeardown(c: Chain): seq<Command> {
    [Tables(DeleteJump(c)), Tables(FlushChain(c)), Tables(DeleteChain(c))]
  }

  lemma BestEffortThree(w: World, a: Command, b: Command, c: Command)
    ensures BestEffort(w, [a, b, c]) == Exec(Exec(Exec(w, a).world, b).world, c).world
  {
    hide Exec;
    assert [a, b, c] == [a] + ([b] + [c]);
    BestEffortAppend(w, [a], [b] + [c]);
    BestEffortAppend(Exec(w, a).world, [b], [c]);
    BestEffortOne(w, a);
    BestEffortOne(Exec(w, a).world, b);
    BestEffortOne(Exec(Exec(w, a).world, b).world, c);
    hide BestEffort;
  }

  lemma {:induction false} ChainTeardownJumps(w: World, c: Chain, d: Chain)
    ensures var w' := BestEffort(w, ChainTeardown(c));
            && w'.now == w.now + 3 && w'.fate == w.fate
            && w'.kernel.fw.jumps[d] == if c == d && !w.fate(w.now).fails then Less(w.kernel.fw.jumps[d]) else w.kernel.fw.jumps[d]
  {
    var w1 := Exec(w, Tables(DeleteJump(c))).world;
    var w2 := Exec(w1, Tables(FlushChain(c))).world;
    BestEffortThree(w, Tables(DeleteJump(c)), Tables(FlushChain(c)), Tables(DeleteChain(c)));
    if c == d {
      DeleteJumpExact(w, d);
    } else {
      ExecSparesJump(w, Tables(DeleteJump(c)), d);
    }
    ExecSparesJump(w1, Tables(FlushChain(c)), d);
    ExecSparesJump(w2, Tables(DeleteChain(c)), d);
    ExecTicks(w, Tables(DeleteJump(c)));
    ExecTicks(w1, Tables(FlushChain(c)));
    ExecTicks(w2, Tables(DeleteChain(c)));
    hide Exec, BestEffort;
  }

  lemma {:induction false} FirewallTeardownJumps(w: World, d: Chain)
    ensures var w' := BestEffort(w, FIREWALL_TEARDOWN);
            && w'.now == w.now + 9 && w'.fate == w.fate
            && w'.kernel.fw.jumps[d]
               == if w.fate(w.now + DeletionInstant(d)).fails then w.kernel.fw.jumps[d] else Less(w.kernel.fw.jumps[d])
  {
    var i, f, m := ChainTeardown(InputChain), ChainTeardown(ForwardChain), ChainTeardown(MssChain);
    assert FIREWALL_TEARDOWN == i + (f + m);
    hide BestEffort, ChainTeardown;
    BestEffortAppend(w, i, f + m);
    var w1 := BestEffort(w, i);
    BestEffortAppend(w1, f, m);
    ChainTeardownJumps(w, InputChain, d);
    ChainTeardownJumps(w1, ForwardChain, d);
    ChainTeardownJumps(BestEffort(w1, f), MssChain, d);
    hide Less;
  }

  /** A teardown removes one jump to each chain, unless that one command fails. */
  lemma TeardownJumps(w: World, a: AppliedState, d: Chain)
    ensures Teardown(w, a).kernel.fw.jumps[d]
         == if w.fate(w.now + DeletionInstant(d)).fails then w.kernel.fw.jumps[d] else Less(w.kernel.fw.jumps[d])
  {
    var rest := AddressTeardown(a.networks) + RouteTeardown(a) + TUNNEL_TEARDOWN;
    TeardownSplit(w, a);
    TablesSpare(rest, d);
    FirewallTeardownJumps(w, d);
    hide AddressTeardown, RouteTeardown, BestEffort, Teardown, DeletionInstant;
    BestEffortSparesJump(BestEffort(w, FIREWALL_TEARDOWN), rest, d);
  }

  /** The world in which the check for the jump to `d` runs, `d` being installed from `w`. */
  function Filled(w: World, d: Chain, wan: string): World {
    BestEffort(w, [Tables(NewChain(d)), Tables(FlushChain(d))] + AppendAll(d, RulesOf(d, wan)))
  }

  /** A jump is added when the check does not find one -- because there is none or because the check
      itself fails -- and the insertion works. */
  lemma EnsureJumpExact(w: World, d: Chain)
    ensures EnsureJump(w, d).kernel.fw.jumps[d]
         == if (w.fate(w.now).fails || w.kernel.fw.jumps[d] == 0) && !w.fate(w.now + 1).fails && d in w.kernel.fw.chains
            then w.kernel.fw.jumps[d] + 1 else w.kernel.fw.jumps[d]
  {
  }

  lemma EnsureJumpSpares(w: World, c: Chain, d: Chain)
    requires c != d
    ensures EnsureJump(w, c).kernel.fw.jumps[d] == w.kernel.fw.jumps[d]
  {
    ExecSparesJump(w, Tables(CheckJump(c)), d);
    ExecSparesJump(Exec(w, Tables(CheckJump(c))).world, Tables(InsertJump(c)), d);
    hide Exec;
  }

  lemma {:induction false} AppendsSpare(c: Chain, rules: seq<Rule>, d: Chain)
    ensures forall cmd <- AppendAll(c, rules) :: SparesJump(cmd, d)
  {
    if rules != [] {
      AppendsSpare(c, rules[1..], d);
    }
  }

  lemma FilledSpares(w: World, c: Chain, wan: string, d: Chain)
    ensures Filled(w, c, wan).kernel.fw.jumps[d] == w.kernel.fw.jumps[d]
  {
    AppendsSpare(c, RulesOf(c, wan), d);
    hide BestEffort, AppendAll, RulesOf;
    BestEffortSparesJump(w, [Tables(NewChain(c)), Tables(FlushChain(c))] + AppendAll(c, RulesOf(c, wan)), d);
  }

  lemma InstallSpares(w: World, c: Chain, wan: string, d: Chain)
    requires c != d
    ensures InstallChain(w, c, wan).kernel.fw.jumps[d] == w.kernel.fw.jumps[d]
  {
    FilledSpares(w, c, wan, d);
    EnsureJumpSpares(Filled(w, c, wan), c, d);
    hide BestEffort, EnsureJump;
  }

  /** The world in which an install of all chains checks for the jump to `d`. */
  function CheckWorld(w: World, wan: string, d: Chain): World {
    match d
    case InputChain => Filled(w, InputChain, wan)
    case ForwardChain => Filled(InstallChain(w, InputChain, wan), ForwardChain, wan)
    case MssChain => Filled(InstallChain(InstallChain(w, InputChain, wan), ForwardChain, wan), MssChain, wan)
  }

  lemma FirewallUpJumps(w: World, wan: string, d: Chain)
    ensures FirewallUp(w, wan).kernel.fw.jumps[d] == EnsureJump(CheckWorld(w, wan, d), d).kernel.fw.jumps[d]
    ensures CheckWorld(w, wan, d).kernel.fw.jumps[d] == w.kernel.fw.jumps[d]
  {
    var a := InstallChain(w, InputChain, wan);
    var b := InstallChain(a, ForwardChain, wan);
    match d {
      case InputChain =>
        FilledSpares(w, InputChain, wan, d);
        InstallSpares(a, ForwardChain, wan, d);
        InstallSpares(b, MssChain, wan, d);
      case ForwardChain =>
        InstallSpares(w, InputChain, wan, d);
        FilledSpares(a, ForwardChain, wan, d);
        InstallSpares(b, MssChain, wan, d);
      case MssChain =>
        InstallSpares(w, InputChain, wan, d);
        InstallSpares(a, ForwardChain, wan, d);
        FilledSpares(b, MssChain, wan, d);
    }
    hide BestEffort, EnsureJump;
  }

  /** The world an establishing run has reached when it turns to the firewall. */
  function BeforeFirewall(w: World, c: Config): World {
    var wan := c.server.wanInterface;
    var ip := ReadWAN4(w, wan);
    var mtu := ResolveMTU(ip.world, c.tunnel.mtu, wan);
    if ip.value.None? || mtu.value.None? then mtu.world
    else
      var resolved := WithMTU(c, mtu.value.value);
      BringUpRoute(BringUpAddresses(BringUpLink(mtu.world, resolved, ip.value.value).world, resolved).world, resolved).world
  }

  lemma {:induction false} BringUpBefore(w: World, c: Config, wan4: string)
    requires w.Valid() && BringUp(w, c, wan4).err.None?
    ensures var r := BringUpRoute(BringUpAddresses(BringUpLink(w, c, wan4).world, c).world, c).world;
            && BringUp(w, c, wan4).world == FirewallUp(r, c.server.wanInterface)
            && r.kernel.fw == w.kernel.fw && r.fate == w.fate && r.now >= w.now && r.Valid()
  {
    hide World.Valid, BringUpLink, BringUpAddresses, BringUpRoute, FirewallUp, World.Calm;
    var l := BringUpLink(w, c, wan4);
    BringUpLinkFrame(w, c, wan4);
    LinkFrameValid(w, c, l.world);
    var a := BringUpAddresses(l.world, c);
    BringUpAddressesFrame(l.world, c);
    AddressesFrameValid(l.world, c, a.world);
    BringUpRouteFrame(a.world, c);
  }

  lemma {:induction false} EstablishBefore(w: World, c: Config)
    requires w.Valid() && Establish(w, c).err.None?
    ensures var r := BeforeFirewall(w, c);
            && Establish(w, c).world == FirewallUp(r, c.server.wanInterface)
            && r.kernel.fw == w.kernel.fw && r.fate == w.fate && r.now >= w.now && r.Valid()
  {
    hide World.Valid, ReadWAN4, ResolveMTU, World.Calm, BringUpLink, BringUpAddresses, BringUpRoute, FirewallUp,
         BringUp;
    var wan := c.server.wanInterface;
    var ip := ReadWAN4(w, wan);
    ReadWAN4Reads(w, wan);
    OnwardValid(w, ip.world);
    var mtu := ResolveMTU(ip.world, c.tunnel.mtu, wan);
    ResolveMTUReads(ip.world, c.tunnel.mtu, wan);
    OnwardValid(ip.world, mtu.world);
    BringUpBefore(mtu.world, WithMTU(c, mtu.value.value), ip.value.value);
  }

  /** The instant at which a reconcile checks for the jump to `d`. */
  function CheckInstant(w: World, c: Config, applied: AppliedState, d: Chain): nat {
    CheckWorld(BeforeFirewall(Teardown(w, applied), c), c.server.wanInterface, d).now
  }

  lemma CheckWorldFate(w: World, wan: string, d: Chain)
    requires w.Valid()
    ensures var check := CheckWorld(w, wan, d); check.Valid() && check.fate == w.fate && check.now >= w.now
  {
    hide World.Valid, InstallChain, Filled, OnlyFirewall;
    var a := InstallChain(w, InputChain, wan);
    InstallChainOnlyFirewall(w, InputChain, wan);
    OnlyFirewallValid(w, a);
    var b := InstallChain(a, ForwardChain, wan);
    InstallChainOnlyFirewall(a, ForwardChain, wan);
    OnlyFirewallValid(a, b);
    FilledFate(w, InputChain, wan);
    FilledFate(a, ForwardChain, wan);
    FilledFate(b, MssChain, wan);
  }

  lemma FilledFate(w: World, c: Chain, wan: string)
    requires w.Valid()
    ensures var filled := Filled(w, c, wan); filled.Valid() && filled.fate == w.fate && filled.now >= w.now
  {
    hide World.Valid, AppendAll, RulesOf;
    BestEffortKeeps(w, [Tables(NewChain(c)), Tables(FlushChain(c))] + AppendAll(c, RulesOf(c, wan)));
    hide BestEffort;
  }

  lemma {:induction false} EstablishJumps(w: World, c: Config, d: Chain)
    requires w.Valid() && Establish(w, c).err.None? && w.kernel.fw.jumps[d] <= 1
    ensures var t := CheckWorld(BeforeFirewall(w, c), c.server.wanInterface, d).now;
            Establish(w, c).world.kernel.fw.jumps[d] > 1 <==>
            w.kernel.fw.jumps[d] == 1 && w.fate(t).fails && !w.fate(t + 1).fails
  {
    var wan := c.server.wanInterface;
    hide World.Valid, World.Calm, Establish, BeforeFirewall, CheckWorld, FirewallUp, EnsureJump;
    EstablishBefore(w, c);
    var ready := BeforeFirewall(w, c);
    FirewallUpJumps(ready, wan, d);
    CheckWorldFate(ready, wan, d);
    EnsureJumpExact(CheckWorld(ready, wan, d), d);
    JumpedChainExists(CheckWorld(ready, wan, d), d);
  }

  /** A second jump, exactly. An established reconcile that started with at most one jump to a chain
      ends with at most one, except precisely when there was one, the teardown's command to remove it
      failed, the check for it failed too, and the insertion worked. */
  lemma {:induction false} SecondJumpIff(w: World, c: Config, applied: AppliedState, d: Chain)
    requires w.Valid() && c.tunnel.enabled && w.kernel.fw.jumps[d] <= 1
    requires Reconcile(w, c, true, applied).err.None?
    ensures var t := CheckInstant(w, c, applied, d);
            Reconcile(w, c, true, applied).world.kernel.fw.jumps[d] > 1 <==>
            (&& w.kernel.fw.jumps[d] == 1
             && w.fate(w.now + DeletionInstant(d)).fails
             && w.fate(t).fails
             && !w.fate(t + 1).fails)
  {
    hide World.Valid, World.Calm, Teardown, Establish, BeforeFirewall, CheckWorld, DeletionInstant, Onward;
    TeardownLeavesOne(w, applied, d);
    EstablishJumps(Teardown(w, applied), c, d);
  }

  /** The check comes after the teardown has begun. */
  lemma {:induction false} CheckIsLater(w: World, c: Config, applied: AppliedState, d: Chain)
    requires w.Valid() && c.tunnel.enabled && Reconcile(w, c, true, applied).err.None?
    ensures CheckInstant(w, c, applied, d) >= w.now
  {
    hide World.Valid, World.Calm, Teardown, Establish, BeforeFirewall, CheckWorld, FirewallUp, Reduced;
    var down := Teardown(w, applied);
    TeardownReduces(w, applied);
    ReducedValid(w, down);
    EstablishBefore(down, c);
    CheckWorldFate(BeforeFirewall(down, c), c.server.wanInterface, d);
    hide Onward;
    TeardownTakes(w, applied);
  }

  lemma TeardownTakes(w: World, applied: AppliedState)
    ensures Teardown(w, applied).now >= w.now
  {
    hide Exec, TeardownScript;
    BestEffortTakes(w, TeardownScript(applied));
  }

  lemma {:induction false} BestEffortTakes(w: World, cs: seq<Command>)
    ensures BestEffort(w, cs).now == w.now + |cs|
    decreases |cs|
  {
    hide Exec;
    if cs != [] {
      ExecTicks(w, cs[0]);
      BestEffortTakes(Exec(w, cs[0]).world, cs[1..]);
    }
  }

  lemma TeardownLeavesOne(w: World, applied: AppliedState, d: Chain)
    requires w.Valid() && w.kernel.fw.jumps[d] <= 1
    ensures var down := Teardown(w, applied);
            && down.Valid() && down.fate == w.fate
            && down.kernel.fw.jumps[d] <= 1
            && (down.kernel.fw.jumps[d] == 1 <==> w.kernel.fw.jumps[d] == 1 && w.fate(w.now + DeletionInstant(d)).fails)
  {
    TeardownReduces(w, applied);
    ReducedValid(w, Teardown(w, applied));
    TeardownJumps(w, applied, d);
    hide World.Valid, World.Calm, Teardown, Reduced, DeletionInstant;
  }

  lemma JumpedChainExists(w: World, d: Chain)
    requires w.Valid()
    ensures w.kernel.fw.jumps[d] > 0 ==> d in w.kernel.fw.chains
  {
    assert w.kernel.fw.jumps[d] > 0 ==> d in w.kernel.fw.jumps;
  }

  /** A reconcile that fails, or has nothing to establish, adds no jump whatever happens. */
  lemma NoJumpAdded(w: World, c: Config, valid: bool, applied: AppliedState, d: Chain)
    requires w.Valid()
    requires !(valid && c.tunnel.enabled && Reconcile(w, c, valid, applied).err.None?)
    ensures Reconcile(w, c, valid, applied).world.kernel.fw.jumps[d] <= w.kernel.fw.jumps[d]
  {
    var down := Teardown(w, applied);
    TeardownReduces(w, applied);
    ReducedValid(w, down);
    TeardownJumps(w, applied, d);
    hide World.Valid, World.Calm, Teardown, Establish, Reduced, DeletionInstant;
    if valid && c.tunnel.enabled {
      FailedEstablishFirewall(down, c);
    }
  }

  lemma FailedEstablishFirewall(w: World, c: Config)
    requires w.Valid() && Establish(w, c).err.Some?
    ensures Establish(w, c).world.kernel.fw == w.kernel.fw
  {
    hide World.Valid, ReadWAN4, ResolveMTU, World.Calm, BringUp;
    var wan := c.server.wanInterface;
    var ip := ReadWAN4(w, wan);
    ReadWAN4Reads(w, wan);
    OnwardValid(w, ip.world);
    if ip.value.Some? {
      var mtu := ResolveMTU(ip.world, c.tunnel.mtu, wan);
      ResolveMTUReads(ip.world, c.tunnel.mtu, wan);
      OnwardValid(ip.world, mtu.world);
      if mtu.value.Some? {
        FailedBringUpFirewall(mtu.world, WithMTU(c, mtu.value.value), ip.value.value);
      }
    }
  }

  lemma FailedBringUpFirewall(w: World, c: Config, wan4: string)
    requires w.Valid() && BringUp(w, c, wan4).err.Some?
    ensures BringUp(w, c, wan4).world.kernel.fw == w.kernel.fw
  {
    hide World.Valid, BringUpLink, BringUpAddresses, BringUpRoute, FirewallUp, World.Calm;
    var l := BringUpLink(w, c, wan4);
    BringUpLinkFrame(w, c, wan4);
    LinkFrameValid(w, c, l.world);
    if l.err.None? {
      var a := BringUpAddresses(l.world, c);
      BringUpAddressesFrame(l.world, c);
      AddressesFrameValid(l.world, c, a.world);
      if a.err.None? {
        BringUpRouteFrame(a.world, c);
      }
    }
    hide Onward, OnlyLink;
  }

  // ---------------------------------------------------------------- the failed check

  /** Installed where there is one jump to the input chain, with the check for it failing: two jumps. */
  lemma FailedCheck(w: World, wan: string)
    requires w.Valid() && w.kernel.fw.jumps[InputChain] == 1
    requires w.fate(w.now + 3).fails && !w.fate(w.now + 4).fails
    ensures FirewallUp(w, wan).kernel.fw.jumps[InputChain] == 2
  {
    var check := CheckWorld(w, wan, InputChain);
    InputInstant(w, wan);
    hide BestEffort, EnsureJump, FirewallUp, World.Valid, Filled, InstallChain;
    assert check.now == w.now + 3;
    hide CheckWorld;
    FirewallUpJumps(w, wan, InputChain);
    CheckWorldFate(w, wan, InputChain);
    JumpedChainExists(check, InputChain);
    EnsureJumpExact(check, InputChain);
  }

  lemma InputInstant(w: World, wan: string)
    ensures Filled(w, InputChain, wan).now == w.now + 3
  {
    var cs := [Tables(NewChain(InputChain)), Tables(FlushChain(InputChain))] + AppendAll(InputChain, RulesOf(InputChain, wan));
    var r := AcceptProtocol41(wan);
    assert RulesOf(InputChain, wan) == [r] && [r][1..] == [];
    assert AppendAll(InputChain, [r]) == [Tables(AppendRule(InputChain, r))];
    AppendsSpare(InputChain, RulesOf(InputChain, wan), MssChain);
    hide BestEffort, AppendAll, RulesOf;
    BestEffortSparesJump(w, cs, MssChain);
  }
}
