/** The managed chains and their jumps: what a reconcile leaves in the firewall, whatever it found. */
module FirewallLaws {
  import opened Kernel
  import opened Backend
  import opened AddressLaws

  /** Only the firewall changed. */
  ghost predicate OnlyFirewall(w: World, w': World) {
    && Onward(w, w')
    && w'.kernel.net == w.kernel.net
    && w'.owned == w.owned
  }

  predicate AllTables(cs: seq<Command>) {
    forall c <- cs :: c.Tables?
  }

  lemma ExecTables(w: World, f: FirewallCommand)
    requires w.Valid()
    ensures OnlyFirewall(w, Exec(w, Tables(f)).world)
  {
    ExecOnward(w, Tables(f));
    hide FirewallEffect, Firewall.Valid, Network.Valid, World.Calm, SameSurroundings, Onward;
  }

  lemma OnlyFirewallTrans(a: World, b: World, c: World)
    requires OnlyFirewall(a, b) && OnlyFirewall(b, c)
    ensures OnlyFirewall(a, c)
  {
    OnwardTrans(a, b, c);
    hide Onward;
  }

  lemma OnlyFirewallRefl(w: World)
    requires w.Valid()
    ensures OnlyFirewall(w, w)
  {
    hide World.Valid, World.Calm;
  }

  lemma OnlyFirewallValid(w: World, w': World)
    requires OnlyFirewall(w, w')
    ensures w'.Valid() && Onward(w, w')
  {
  }

  lemma {:induction false} BestEffortTables(w: World, cs: seq<Command>)
    requires w.Valid() && AllTables(cs)
    ensures OnlyFirewall(w, BestEffort(w, cs))
    decreases |cs|
  {
    hide World.Valid, OnlyFirewall, Exec;
    if cs == [] {
      OnlyFirewallRefl(w);
    } else {
      var w1 := Exec(w, cs[0]).world;
      ExecTables(w, cs[0].firewall);
      OnlyFirewallValid(w, w1);
      BestEffortTables(w1, cs[1..]);
      OnlyFirewallTrans(w, w1, BestEffort(w, cs));
    }
  }

  lemma AppendAllTables(chain: Chain, rules: seq<Rule>)
    ensures AllTables(AppendAll(chain, rules))
  {
  }

  lemma InstallChainOnlyFirewall(w: World, chain: Chain, wan: string)
    requires w.Valid()
    ensures OnlyFirewall(w, InstallChain(w, chain, wan))
  {
    var cs := [Tables(NewChain(chain)), Tables(FlushChain(chain))] + AppendAll(chain, RulesOf(chain, wan));
    AppendAllTables(chain, RulesOf(chain, wan));
    assert AllTables(cs);
    hide World.Valid, OnlyFirewall, Exec, BestEffort, AllTables, AppendAll, RulesOf;
    BestEffortTables(w, cs);
    var w1 := BestEffort(w, cs);
    OnlyFirewallValid(w, w1);
    ExecTables(w1, CheckJump(chain));
    var w2 := Exec(w1, Tables(CheckJump(chain))).world;
    OnlyFirewallValid(w1, w2);
    OnlyFirewallTrans(w, w1, w2);
    ExecTables(w2, InsertJump(chain));
    OnlyFirewallTrans(w, w2, Exec(w2, Tables(InsertJump(chain))).world);
  }

  /** Installing the firewall changes nothing but the firewall. */
  lemma FirewallUpOnlyFirewall(w: World, wan: string)
    requires w.Valid()
    ensures OnlyFirewall(w, FirewallUp(w, wan))
  {
    hide World.Valid, OnlyFirewall, InstallChain;
    var a := InstallChain(w, InputChain, wan);
    var b := InstallChain(a, ForwardChain, wan);
    InstallChainOnlyFirewall(w, InputChain, wan);
    OnlyFirewallValid(w, a);
    InstallChainOnlyFirewall(a, ForwardChain, wan);
    OnlyFirewallValid(a, b);
    InstallChainOnlyFirewall(b, MssChain, wan);
    OnlyFirewallTrans(w, a, b);
    OnlyFirewallTrans(w, b, InstallChain(b, MssChain, wan));
  }

  // ---------------------------------------------------------------- one chain, nothing failing

  /** The firewall after a command on one chain, nothing failing. */
  function After(f: Firewall, cmd: FirewallCommand): Firewall {
    var e := FirewallEffect(f, cmd);
    if e.Some? then e.value else f
  }

  function AfterAll(f: Firewall, cmds: seq<FirewallCommand>): Firewall
    decreases |cmds|
  {
    if cmds == [] then f else AfterAll(After(f, cmds[0]), cmds[1..])
  }

  lemma CalmExec(w: World, cmd: FirewallCommand)
    requires w.Calm()
    ensures Exec(w, Tables(cmd)).world.kernel.fw == After(w.kernel.fw, cmd)
    ensures Exec(w, Tables(cmd)).ok <==> FirewallEffect(w.kernel.fw, cmd).Some?
  {
    hide FirewallEffect;
  }

  function AsCommands(cmds: seq<FirewallCommand>): (cs: seq<Command>)
    ensures AllTables(cs)
  {
    if cmds == [] then [] else [Tables(cmds[0])] + AsCommands(cmds[1..])
  }

  lemma {:induction false} CalmBestEffort(w: World, cmds: seq<FirewallCommand>)
    requires w.Valid() && w.Calm()
    ensures BestEffort(w, AsCommands(cmds)).kernel.fw == AfterAll(w.kernel.fw, cmds)
    ensures OnlyFirewall(w, BestEffort(w, AsCommands(cmds)))
    decreases |cmds|
  {
    BestEffortTables(w, AsCommands(cmds));
    hide World.Valid, World.Calm, Exec, After, OnlyFirewall;
    if cmds != [] {
      CalmExec(w, cmds[0]);
      ExecTables(w, cmds[0]);
      OnlyFirewallValid(w, Exec(w, Tables(cmds[0])).world);
      assert AsCommands(cmds)[1..] == AsCommands(cmds[1..]);
      CalmBestEffort(Exec(w, Tables(cmds[0])).world, cmds[1..]);
    }
  }

  function Appends(c: Chain, rules: seq<Rule>): seq<FirewallCommand> {
    if rules == [] then [] else [AppendRule(c, rules[0])] + Appends(c, rules[1..])
  }

  lemma {:induction false} AppendsAsCommands(c: Chain, rules: seq<Rule>)
    ensures AsCommands(Appends(c, rules)) == AppendAll(c, rules)
  {
    if rules != [] {
      AppendsAsCommands(c, rules[1..]);
      assert Appends(c, rules)[1..] == Appends(c, rules[1..]);
    }
  }

  function WithRules(f: Firewall, c: Chain, rules: seq<Rule>): Firewall {
    f.(chains := f.chains[c := rules])
  }

  lemma AppendOne(f: Firewall, c: Chain, have: seq<Rule>, r: Rule)
    ensures After(WithRules(f, c, have), AppendRule(c, r)) == WithRules(f, c, have + [r])
  {
  }

  lemma {:induction false} AppendsResult(f: Firewall, c: Chain, have: seq<Rule>, rules: seq<Rule>)
    ensures AfterAll(WithRules(f, c, have), Appends(c, rules)) == WithRules(f, c, have + rules)
    decreases |rules|
  {
    hide After, WithRules;
    if rules == [] {
      assert have + rules == have;
    } else {
      AppendOne(f, c, have, rules[0]);
      assert Appends(c, rules)[1..] == Appends(c, rules[1..]);
      AppendsResult(f, c, have + [rules[0]], rules[1..]);
      assert have + [rules[0]] + rules[1..] == have + rules;
    }
  }

  function Max(a: nat, b: nat): nat {
    if a > b then a else b
  }

  /** One chain installed: exactly the intended rules, and a jump if there was none. */
  function Installed(f: Firewall, c: Chain, wan: string): Firewall {
    Firewall(f.chains[c := RulesOf(c, wan)], f.jumps[c := Max(f.jumps[c], 1)])
  }

  lemma InstallCommands(c: Chain, wan: string)
    ensures AsCommands([NewChain(c), FlushChain(c)] + Appends(c, RulesOf(c, wan)))
         == [Tables(NewChain(c)), Tables(FlushChain(c))] + AppendAll(c, RulesOf(c, wan))
  {
    var rules := RulesOf(c, wan);
    hide RulesOf;
    var cmds := [NewChain(c), FlushChain(c)] + Appends(c, rules);
    AppendsAsCommands(c, rules);
    assert cmds[1..] == [FlushChain(c)] + Appends(c, rules);
    assert cmds[1..][1..] == Appends(c, rules);
    assert AsCommands(cmds) == [Tables(NewChain(c))] + ([Tables(FlushChain(c))] + AppendAll(c, rules));
  }

  lemma FlushedChain(f: Firewall, c: Chain)
    ensures After(After(f, NewChain(c)), FlushChain(c)) == WithRules(f, c, [])
  {
  }

  lemma InstallResult(f: Firewall, c: Chain, wan: string)
    ensures AfterAll(f, [NewChain(c), FlushChain(c)] + Appends(c, RulesOf(c, wan))) == WithRules(f, c, RulesOf(c, wan))
  {
    var rules := RulesOf(c, wan);
    hide RulesOf, After, WithRules;
    FlushedChain(f, c);
    var cmds := [NewChain(c), FlushChain(c)] + Appends(c, rules);
    assert cmds[1..] == [FlushChain(c)] + Appends(c, rules);
    assert cmds[1..][1..] == Appends(c, rules);
    AppendsResult(f, c, [], rules);
    assert [] + rules == rules;
  }

  /** With nothing failing, installing a chain gives it exactly its rules, whatever it held, and one
      jump unless it already had one or more. */
  lemma CalmInstallChain(w: World, c: Chain, wan: string)
    requires w.Valid() && w.Calm()
    ensures InstallChain(w, c, wan).kernel.fw == Installed(w.kernel.fw, c, wan)
    ensures OnlyFirewall(w, InstallChain(w, c, wan))
  {
    InstallChainOnlyFirewall(w, c, wan);
    var cmds := [NewChain(c), FlushChain(c)] + Appends(c, RulesOf(c, wan));
    InstallCommands(c, wan);
    InstallResult(w.kernel.fw, c, wan);
    CalmBestEffort(w, cmds);
    var w1 := BestEffort(w, AsCommands(cmds));
    OnlyFirewallValid(w, w1);
    hide World.Valid, World.Calm, Exec, BestEffort, AfterAll, AsCommands, OnlyFirewall, RulesOf, Appends, AppendAll,
         SameSurroundings;
    CalmExec(w1, CheckJump(c));
    ExecTables(w1, CheckJump(c));
    var w2 := Exec(w1, Tables(CheckJump(c))).world;
    OnlyFirewallValid(w1, w2);
    CalmExec(w2, InsertJump(c));
  }

  // ---------------------------------------------------------------- teardown of the firewall

  /** One chain torn down, nothing failing: one jump less; the chain goes unless jumps remain. */
  function Removed(f: Firewall, c: Chain): Firewall {
    var j := f.jumps[c];
    Firewall(
      if j > 1 then f.chains[c := []] else f.chains - {c},
      f.jumps[c := if j > 0 then j - 1 else 0])
  }

  function RemovalOf(c: Chain): seq<FirewallCommand> {
    [DeleteJump(c), FlushChain(c), DeleteChain(c)]
  }

  lemma RemovalResult(f: Firewall, c: Chain, rest: seq<FirewallCommand>)
    requires f.Valid()
    ensures AfterAll(f, RemovalOf(c) + rest) == AfterAll(Removed(f, c), rest)
    ensures Removed(f, c).Valid()
  {
    var cmds := RemovalOf(c) + rest;
    assert cmds[1..] == [FlushChain(c), DeleteChain(c)] + rest;
    assert cmds[1..][1..] == [DeleteChain(c)] + rest;
    assert cmds[1..][1..][1..] == rest;
    hide AfterAll;
    AfterAllStep(f, cmds);
    AfterAllStep(After(f, DeleteJump(c)), cmds[1..]);
    AfterAllStep(After(After(f, DeleteJump(c)), FlushChain(c)), cmds[1..][1..]);
    RemovalSteps(f, c);
  }

  lemma AfterAllStep(f: Firewall, cmds: seq<FirewallCommand>)
    requires cmds != []
    ensures AfterAll(f, cmds) == AfterAll(After(f, cmds[0]), cmds[1..])
  {
  }

  lemma RemovalSteps(f: Firewall, c: Chain)
    requires f.Valid()
    ensures After(After(After(f, DeleteJump(c)), FlushChain(c)), DeleteChain(c)) == Removed(f, c)
  {
    var a := After(f, DeleteJump(c));
    assert a == f.(jumps := Removed(f, c).jumps);
    var b := After(a, FlushChain(c));
    if c in f.chains {
      assert b == a.(chains := f.chains[c := []]);
      assert f.chains[c := []] - {c} == f.chains - {c};
    } else {
      assert f.chains - {c} == f.chains;
    }
  }

  function RemovedAll(f: Firewall): Firewall {
    Removed(Removed(Removed(f, InputChain), ForwardChain), MssChain)
  }

  lemma TeardownCommands()
    ensures AsCommands(RemovalOf(InputChain) + (RemovalOf(ForwardChain) + (RemovalOf(MssChain) + []))) == FIREWALL_TEARDOWN
  {
    var m := RemovalOf(MssChain) + [];
    assert m == [DeleteJump(MssChain), FlushChain(MssChain), DeleteChain(MssChain)];
    AsThree(MssChain, []);
    AsThree(ForwardChain, m);
    AsThree(InputChain, RemovalOf(ForwardChain) + m);
    hide AsCommands;
  }

  lemma AsThree(c: Chain, rest: seq<FirewallCommand>)
    ensures AsCommands(RemovalOf(c) + rest)
         == [Tables(DeleteJump(c)), Tables(FlushChain(c)), Tables(DeleteChain(c))] + AsCommands(rest)
  {
    var two := [DeleteChain(c)] + rest;
    var one := [FlushChain(c)] + two;
    assert RemovalOf(c) + rest == [DeleteJump(c)] + one;
    AsCommandsStep(DeleteJump(c), one);
    AsCommandsStep(FlushChain(c), two);
    AsCommandsStep(DeleteChain(c), rest);
    hide AsCommands;
  }

  lemma AsCommandsStep(cmd: FirewallCommand, rest: seq<FirewallCommand>)
    ensures AsCommands([cmd] + rest) == [Tables(cmd)] + AsCommands(rest)
  {
    assert ([cmd] + rest)[1..] == rest;
  }

  lemma {:induction false} CalmFirewallTeardown(w: World)
    requires w.Valid() && w.Calm()
    ensures BestEffort(w, FIREWALL_TEARDOWN).kernel.fw == RemovedAll(w.kernel.fw)
    ensures OnlyFirewall(w, BestEffort(w, FIREWALL_TEARDOWN))
  {
    var f := w.kernel.fw;
    var m := RemovalOf(MssChain) + [];
    var fm := RemovalOf(ForwardChain) + m;
    var cmds := RemovalOf(InputChain) + fm;
    assert f.Valid();
    TeardownCommands();
    CalmBestEffort(w, cmds);
    assert cmds == RemovalOf(InputChain) + (RemovalOf(ForwardChain) + (RemovalOf(MssChain) + []));
    hide World.Valid, World.Calm, BestEffort, AsCommands, OnlyFirewall, Removed, RemovalOf;
    RemovalResult(f, InputChain, fm);
    RemovalResult(Removed(f, InputChain), ForwardChain, m);
    RemovalResult(Removed(Removed(f, InputChain), ForwardChain), MssChain, []);
  }

  // ---------------------------------------------------------------- commands that are not iptables

  predicate NoTables(cs: seq<Command>) {
    forall c <- cs :: !c.Tables?
  }

  lemma ExecKeepsFirewall(w: World, c: Command)
    requires !c.Tables?
    ensures Exec(w, c).world.kernel.fw == w.kernel.fw
  {
    hide NetworkEffect;
  }

  lemma {:induction false} BestEffortKeepsFirewall(w: World, cs: seq<Command>)
    requires NoTables(cs)
    ensures BestEffort(w, cs).kernel.fw == w.kernel.fw
    decreases |cs|
  {
    hide Exec;
    if cs != [] {
      ExecKeepsFirewall(w, cs[0]);
      BestEffortKeepsFirewall(Exec(w, cs[0]).world, cs[1..]);
    }
  }

  lemma {:induction false} RunAllKeepsFirewall(w: World, cs: seq<Command>)
    requires NoTables(cs)
    ensures RunAll(w, cs).world.kernel.fw == w.kernel.fw
    decreases |cs|
  {
    hide Exec;
    if cs != [] {
      ExecKeepsFirewall(w, cs[0]);
      if Run(w, cs[0]).err.None? {
        RunAllKeepsFirewall(Run(w, cs[0]).world, cs[1..]);
      }
    }
  }

  lemma AddressTeardownNoTables(ns: seq<NetworkStatus>)
    ensures NoTables(AddressTeardown(ns))
  {
  }

  lemma {:induction false} TeardownSplit(w: World, a: AppliedState)
    ensures Teardown(w, a)
         == BestEffort(BestEffort(w, FIREWALL_TEARDOWN), AddressTeardown(a.networks) + RouteTeardown(a) + TUNNEL_TEARDOWN)
    ensures NoTables(AddressTeardown(a.networks) + RouteTeardown(a) + TUNNEL_TEARDOWN)
  {
    AddressTeardownNoTables(a.networks);
    assert NoTables(RouteTeardown(a)) && NoTables(TUNNEL_TEARDOWN);
    var rest := AddressTeardown(a.networks) + RouteTeardown(a) + TUNNEL_TEARDOWN;
    hide AddressTeardown, RouteTeardown;
    assert TeardownScript(a) == FIREWALL_TEARDOWN + rest;
    BestEffortAppend(w, FIREWALL_TEARDOWN, rest);
    hide BestEffort;
  }

  /** With nothing failing a teardown removes one jump per chain and, unless jumps remain, the chain. */
  lemma CalmTeardownFirewall(w: World, a: AppliedState)
    requires w.Valid() && w.Calm()
    ensures Teardown(w, a).kernel.fw == RemovedAll(w.kernel.fw)
  {
    TeardownSplit(w, a);
    CalmFirewallTeardown(w);
    hide World.Valid, World.Calm, BestEffort, AddressTeardown, RouteTeardown, Teardown, Removed;
    BestEffortKeepsFirewall(BestEffort(w, FIREWALL_TEARDOWN), AddressTeardown(a.networks) + RouteTeardown(a) + TUNNEL_TEARDOWN);
  }

  function InstalledAll(f: Firewall, wan: string): Firewall {
    Installed(Installed(Installed(f, InputChain, wan), ForwardChain, wan), MssChain, wan)
  }

  lemma CalmFirewallUp(w: World, wan: string)
    requires w.Valid() && w.Calm()
    ensures FirewallUp(w, wan).kernel.fw == InstalledAll(w.kernel.fw, wan)
  {
    CalmInstallChain(w, InputChain, wan);
    var a := InstallChain(w, InputChain, wan);
    hide InstallChain, Installed, World.Valid, World.Calm;
    OnlyFirewallCalm(w, a);
    CalmInstallChain(a, ForwardChain, wan);
    var b := InstallChain(a, ForwardChain, wan);
    OnlyFirewallCalm(a, b);
    CalmInstallChain(b, MssChain, wan);
  }

  lemma OnlyFirewallCalm(w: World, w': World)
    requires OnlyFirewall(w, w') && w.Calm()
    ensures w'.Valid() && w'.Calm()
  {
  }

  /** Exactly the intended rules with `count` jumps. */
  ghost predicate ChainIs(f: Firewall, c: Chain, wan: string, count: nat) {
    c in f.chains && f.chains[c] == RulesOf(c, wan) && f.jumps[c] == count
  }

  lemma InstalledChain(f: Firewall, c: Chain, wan: string, d: Chain)
    ensures d == c ==> ChainIs(Installed(f, c, wan), d, wan, Max(f.jumps[d], 1))
    ensures d != c ==> Installed(f, c, wan).jumps[d] == f.jumps[d]
    ensures d != c ==> forall n: nat :: ChainIs(f, d, wan, n) ==> ChainIs(Installed(f, c, wan), d, wan, n)
  {
    hide RulesOf;
  }

  /** Installing all chains gives each exactly its rules, and a jump to those that had none. */
  lemma InstalledAllChains(f: Firewall, wan: string, d: Chain)
    ensures ChainIs(InstalledAll(f, wan), d, wan, Max(f.jumps[d], 1))
  {
    var a := Installed(f, InputChain, wan);
    var b := Installed(a, ForwardChain, wan);
    InstalledChain(f, InputChain, wan, d);
    InstalledChain(a, ForwardChain, wan, d);
    InstalledChain(b, MssChain, wan, d);
    hide Installed, ChainIs, RulesOf;
    match d
    case InputChain =>
    case ForwardChain =>
    case MssChain =>
  }

  function Less(n: nat): nat {
    if n > 0 then n - 1 else 0
  }

  lemma RemovedChain(f: Firewall, c: Chain, d: Chain)
    ensures d == c ==> Removed(f, c).jumps[d] == Less(f.jumps[d])
    ensures d == c ==> (d in Removed(f, c).chains <==> f.jumps[d] > 1)
    ensures d != c ==> Removed(f, c).jumps[d] == f.jumps[d] && (d in Removed(f, c).chains <==> d in f.chains)
  {
  }

  /** Torn down: one jump less everywhere; a chain is left exactly if it had more than one. */
  lemma RemovedAllChains(f: Firewall, d: Chain)
    ensures RemovedAll(f).jumps[d] == Less(f.jumps[d])
    ensures d in RemovedAll(f).chains <==> f.jumps[d] > 1
  {
    var a := Removed(f, InputChain);
    var b := Removed(a, ForwardChain);
    RemovedChain(f, InputChain, d);
    RemovedChain(a, ForwardChain, d);
    RemovedChain(b, MssChain, d);
    hide Removed;
    match d
    case InputChain =>
    case ForwardChain =>
    case MssChain =>
  }

  /** Torn down and installed again: every chain has exactly its rules; of several stale jumps one is
      removed, and at least one jump is there. */
  lemma RebuiltFirewall(f: Firewall, wan: string)
    ensures forall c: Chain :: ChainIs(InstalledAll(RemovedAll(f), wan), c, wan, Max(Less(f.jumps[c]), 1))
  {
    hide RemovedAll, InstalledAll, ChainIs;
    forall c: Chain
      ensures ChainIs(InstalledAll(RemovedAll(f), wan), c, wan, Max(Less(f.jumps[c]), 1))
    {
      RemovedAllChains(f, c);
      InstalledAllChains(RemovedAll(f), wan, c);
    }
  }

  /** Rebuilding a rebuilt firewall changes nothing, exactly if no chain had more than two jumps at the
      start: of more stale jumps each rebuilding removes one. */
  lemma {:induction false} RebuildIdempotentIff(f: Firewall, wan: string)
    ensures InstalledAll(RemovedAll(InstalledAll(RemovedAll(f), wan)), wan) == InstalledAll(RemovedAll(f), wan) <==>
            forall c: Chain :: f.jumps[c] <= 2
  {
    var g := InstalledAll(RemovedAll(f), wan);
    var h := InstalledAll(RemovedAll(g), wan);
    RebuiltFirewall(f, wan);
    RebuiltFirewall(g, wan);
    hide RulesOf, InstalledAll, RemovedAll;
    forall c: Chain
      ensures c in g.chains && c in h.chains && g.chains[c] == h.chains[c] && (g.jumps[c] == h.jumps[c] <==> f.jumps[c] <= 2)
    {
      assert ChainIs(g, c, wan, Max(Less(f.jumps[c]), 1));
      assert ChainIs(h, c, wan, Max(Less(g.jumps[c]), 1));
    }
    assert g.chains == h.chains;
    if forall c: Chain :: f.jumps[c] <= 2 {
      assert g.jumps == h.jumps;
    }
  }
}
