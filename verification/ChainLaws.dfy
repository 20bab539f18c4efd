/** The rules of the managed chains when commands fail: each chain seen by itself. The firewall commands
    are best-effort, so a reconcile may succeed and leave a chain incomplete; here is exactly when. */
module ChainLaws {
  import opened Options
  import opened Kernel
  import opened Config
  import opened Backend
  import opened AddressLaws
  import opened TeardownLaws
  import opened FirewallLaws
  import opened JumpLaws

  // ---------------------------------------------------------------- one chain

  /** A chain and the jumps to it; without content it does not exist. */
  datatype View = View(content: Option<seq<Rule>>, jumps: nat)

  function ViewOf(f: Firewall, d: Chain): View {
    View(if d in f.chains then Some(f.chains[d]) else None, f.jumps[d])
  }

  /** What a command on the chain does to it; one that is refused does nothing. */
  function Step(v: View, cmd: FirewallCommand): View {
    match cmd
    case NewChain(_) => if v.content.None? then v.(content := Some([])) else v
    case FlushChain(_) => if v.content.Some? then v.(content := Some([])) else v
    case AppendRule(_, r) => if v.content.Some? then v.(content := Some(v.content.value + [r])) else v
    case DeleteChain(_) => if v.content == Some([]) && v.jumps == 0 then v.(content := None) else v
    case CheckJump(_) => v
    case InsertJump(_) => if v.content.Some? then v.(jumps := v.jumps + 1) else v
    case DeleteJump(_) => if v.jumps > 0 then v.(jumps := v.jumps - 1) else v
  }

  lemma EffectView(f: Firewall, cmd: FirewallCommand, d: Chain)
    ensures ViewOf(After(f, cmd), d) == if cmd.chain == d then Step(ViewOf(f, d), cmd) else ViewOf(f, d)
  {
  }

  lemma ExecView(w: World, cmd: FirewallCommand, d: Chain)
    ensures ViewOf(Exec(w, Tables(cmd)).world.kernel.fw, d)
         == if cmd.chain == d && !w.fate(w.now).fails then Step(ViewOf(w.kernel.fw, d), cmd) else ViewOf(w.kernel.fw, d)
  {
    hide FirewallEffect, ViewOf, Step, Present;
    EffectView(w.kernel.fw, cmd, d);
    ExecIsAfter(w, cmd);
  }

  lemma ExecIsAfter(w: World, cmd: FirewallCommand)
    ensures Exec(w, Tables(cmd)).world.kernel.fw == if w.fate(w.now).fails then w.kernel.fw else After(w.kernel.fw, cmd)
  {
    hide FirewallEffect, Present;
  }

  /** The chain after commands on it, each of which may fail at its own instant. */
  function Steps(v: View, fate: nat -> Fate, now: nat, cmds: seq<FirewallCommand>): View
    decreases |cmds|
  {
    if cmds == [] then v
    else Steps(if fate(now).fails then v else Step(v, cmds[0]), fate, now + 1, cmds[1..])
  }

  predicate AllOn(cmds: seq<FirewallCommand>, d: Chain) {
    forall cmd <- cmds :: cmd.chain == d
  }

  lemma {:induction false} BestEffortView(w: World, cmds: seq<FirewallCommand>, d: Chain)
    requires AllOn(cmds, d)
    ensures var w' := BestEffort(w, AsCommands(cmds));
            && ViewOf(w'.kernel.fw, d) == Steps(ViewOf(w.kernel.fw, d), w.fate, w.now, cmds)
            && w'.now == w.now + |cmds| && w'.fate == w.fate
    decreases |cmds|
  {
    hide Exec, Step, ViewOf;
    if cmds != [] {
      ExecView(w, cmds[0], d);
      ExecTicks(w, Tables(cmds[0]));
      assert AsCommands(cmds)[1..] == AsCommands(cmds[1..]);
      BestEffortView(Exec(w, Tables(cmds[0])).world, cmds[1..], d);
    }
  }

  /** Commands that are not about the chain. */
  predicate Elsewhere(cmd: Command, d: Chain) {
    cmd.Tables? ==> cmd.firewall.chain != d
  }

  lemma ExecElsewhere(w: World, cmd: Command, d: Chain)
    requires Elsewhere(cmd, d)
    ensures ViewOf(Exec(w, cmd).world.kernel.fw, d) == ViewOf(w.kernel.fw, d)
  {
    if cmd.Tables? {
      ExecView(w, cmd.firewall, d);
    } else {
      ExecKeepsFirewall(w, cmd);
    }
    hide Exec, ViewOf;
  }

  lemma {:induction false} BestEffortElsewhere(w: World, cs: seq<Command>, d: Chain)
    requires forall cmd <- cs :: Elsewhere(cmd, d)
    ensures ViewOf(BestEffort(w, cs).kernel.fw, d) == ViewOf(w.kernel.fw, d)
    ensures BestEffort(w, cs).now == w.now + |cs| && BestEffort(w, cs).fate == w.fate
    decreases |cs|
  {
    hide Exec, Elsewhere, ViewOf;
    if cs != [] {
      ExecElsewhere(w, cs[0], d);
      ExecTicks(w, cs[0]);
      BestEffortElsewhere(Exec(w, cs[0]).world, cs[1..], d);
    }
  }

  // ---------------------------------------------------------------- teardown

  /** The chain after its three teardown commands, the first of them at instant `t`. */
  function TornDown(v: View, fate: nat -> Fate, t: nat): View {
    var jumps := if fate(t).fails then v.jumps else Less(v.jumps);
    var content := if v.content.Some? && !fate(t + 1).fails then Some([]) else v.content;
    View(if content == Some([]) && jumps == 0 && !fate(t + 2).fails then None else content, jumps)
  }

  lemma RemovalSteps3(v: View, fate: nat -> Fate, t: nat, d: Chain)
    ensures Steps(v, fate, t, RemovalOf(d)) == TornDown(v, fate, t)
  {
    var cmds := RemovalOf(d);
    assert cmds[1..] == [FlushChain(d), DeleteChain(d)];
    assert cmds[1..][1..] == [DeleteChain(d)];
    assert cmds[1..][1..][1..] == [];
  }

  lemma ChainTeardownAsRemoval(c: Chain)
    ensures ChainTeardown(c) == AsCommands(RemovalOf(c))
  {
    assert RemovalOf(c) + [] == RemovalOf(c);
    AsThree(c, []);
  }

  lemma ChainTeardownView(w: World, c: Chain, d: Chain)
    ensures var w' := BestEffort(w, ChainTeardown(c));
            && ViewOf(w'.kernel.fw, d) == (if c == d then TornDown(ViewOf(w.kernel.fw, d), w.fate, w.now) else ViewOf(w.kernel.fw, d))
            && w'.now == w.now + 3 && w'.fate == w.fate
  {
    hide BestEffort, Steps, ViewOf, TornDown, AsCommands;
    if c == d {
      assert AllOn(RemovalOf(d), d);
      BestEffortView(w, RemovalOf(d), d);
      RemovalSteps3(ViewOf(w.kernel.fw, d), w.fate, w.now, d);
      ChainTeardownAsRemoval(d);
    } else {
      assert forall cmd <- ChainTeardown(c) :: Elsewhere(cmd, d);
      BestEffortElsewhere(w, ChainTeardown(c), d);
    }
  }

  /** The exact effect of a teardown on each chain, whatever fails in it. */
  lemma {:induction false} TeardownView(w: World, a: AppliedState, d: Chain)
    ensures ViewOf(Teardown(w, a).kernel.fw, d) == TornDown(ViewOf(w.kernel.fw, d), w.fate, w.now + DeletionInstant(d))
  {
    var i, f, m := ChainTeardown(InputChain), ChainTeardown(ForwardChain), ChainTeardown(MssChain);
    var rest := AddressTeardown(a.networks) + RouteTeardown(a) + TUNNEL_TEARDOWN;
    assert FIREWALL_TEARDOWN == i + (f + m);
    hide BestEffort, ChainTeardown, ViewOf, TornDown, AddressTeardown, RouteTeardown, Teardown;
    TeardownSplit(w, a);
    NoTablesElsewhere(rest, d);
    BestEffortElsewhere(BestEffort(w, FIREWALL_TEARDOWN), rest, d);
    BestEffortAppend(w, i, f + m);
    var w1 := BestEffort(w, i);
    BestEffortAppend(w1, f, m);
    ChainTeardownView(w, InputChain, d);
    ChainTeardownView(w1, ForwardChain, d);
    ChainTeardownView(BestEffort(w1, f), MssChain, d);
  }

  lemma NoTablesElsewhere(cs: seq<Command>, d: Chain)
    requires NoTables(cs)
    ensures forall cmd <- cs :: Elsewhere(cmd, d)
  {
  }

  /** After a reconcile of a disabled or invalid config no chain remains, exactly if: it was not there, or
      its deletion worked on a chain without jumps -- the one jump there may have been was removed -- and
      without rules, because it was flushed or empty anyway. */
  lemma {:induction false} ChainGoneIff(w: World, c: Config, valid: bool, applied: AppliedState, d: Chain)
    requires !(valid && c.tunnel.enabled)
    ensures var f, t := w.kernel.fw, w.now + DeletionInstant(d);
            d !in Reconcile(w, c, valid, applied).world.kernel.fw.chains <==>
            d !in f.chains ||
            (&& !w.fate(t + 2).fails
             && (f.jumps[d] == 0 || (f.jumps[d] == 1 && !w.fate(t).fails))
             && (f.chains[d] == [] || !w.fate(t + 1).fails))
  {
    hide Teardown, DeletionInstant;
    TeardownView(w, applied, d);
  }

  // ---------------------------------------------------------------- installation

  /** The rules whose append works, the first at instant `t`. */
  function Worked(fate: nat -> Fate, t: nat, rules: seq<Rule>): seq<Rule>
    decreases |rules|
  {
    if rules == [] then [] else (if fate(t).fails then [] else [rules[0]]) + Worked(fate, t + 1, rules[1..])
  }

  lemma {:induction false} WorkedAtMost(fate: nat -> Fate, t: nat, rules: seq<Rule>)
    ensures |Worked(fate, t, rules)| <= |rules|
    decreases |rules|
  {
    if rules != [] {
      WorkedAtMost(fate, t + 1, rules[1..]);
    }
  }

  /** No command fails at the `n` instants from `t` on. */
  predicate AllWork(fate: nat -> Fate, t: nat, n: nat) {
    forall i: nat :: t <= i < t + n ==> !fate(i).fails
  }

  /** All rules are there exactly if every append worked. */
  lemma {:induction false} WorkedAllIff(fate: nat -> Fate, t: nat, rules: seq<Rule>)
    ensures Worked(fate, t, rules) == rules <==> AllWork(fate, t, |rules|)
    decreases |rules|
  {
    if rules != [] {
      WorkedAllIff(fate, t + 1, rules[1..]);
      WorkedAtMost(fate, t + 1, rules[1..]);
      var rest := Worked(fate, t + 1, rules[1..]);
      if !fate(t).fails {
        assert Worked(fate, t, rules)[1..] == rest;
        assert rules == [rules[0]] + rules[1..];
      }
    }
  }

  /** What creating and flushing leave in the chain, at instants `t` and `t + 1`. */
  function Base(content: Option<seq<Rule>>, fate: nat -> Fate, t: nat): Option<seq<Rule>> {
    if content.None? then if fate(t).fails then None else Some([])
    else if fate(t + 1).fails then content else Some([])
  }

  /** The chain after it has been filled, the first command at instant `t`. */
  function FilledContent(content: Option<seq<Rule>>, fate: nat -> Fate, t: nat, rules: seq<Rule>): Option<seq<Rule>> {
    var base := Base(content, fate, t);
    if base.None? then None else Some(base.value + Worked(fate, t + 2, rules))
  }

  /** The first append and the others. */
  lemma {:induction false} AppendsUnfold(v: View, fate: nat -> Fate, t: nat, d: Chain, rules: seq<Rule>)
    requires rules != []
    ensures Steps(v, fate, t, Appends(d, rules))
         == Steps(if fate(t).fails then v else Step(v, AppendRule(d, rules[0])), fate, t + 1, Appends(d, rules[1..]))
  {
    assert Appends(d, rules)[1..] == Appends(d, rules[1..]);
  }

  lemma {:induction false} AppendsSteps(v: View, fate: nat -> Fate, t: nat, d: Chain, rules: seq<Rule>)
    ensures Steps(v, fate, t, Appends(d, rules))
         == if v.content.None? then v else v.(content := Some(v.content.value + Worked(fate, t, rules)))
    decreases |rules|
  {
    if rules == [] {
      assert v.content.Some? ==> v.content.value + [] == v.content.value;
    } else {
      AppendsUnfold(v, fate, t, d, rules);
      AppendsSteps(if fate(t).fails then v else Step(v, AppendRule(d, rules[0])), fate, t + 1, d, rules[1..]);
      hide Steps, Appends;
      if v.content.Some? {
        var first := if fate(t).fails then [] else [rules[0]];
        var later := Worked(fate, t + 1, rules[1..]);
        assert v.content.value + first + later == v.content.value + (first + later);
        assert v.content.value + [] == v.content.value;
      }
    }
  }

  lemma FillSteps(v: View, fate: nat -> Fate, t: nat, d: Chain, rules: seq<Rule>)
    ensures Steps(v, fate, t, [NewChain(d), FlushChain(d)] + Appends(d, rules))
         == v.(content := FilledContent(v.content, fate, t, rules))
  {
    var cmds := [NewChain(d), FlushChain(d)] + Appends(d, rules);
    assert cmds[1..] == [FlushChain(d)] + Appends(d, rules);
    assert cmds[1..][1..] == Appends(d, rules);
    var v1 := if fate(t).fails then v else Step(v, NewChain(d));
    var v2 := if fate(t + 1).fails then v1 else Step(v1, FlushChain(d));
    assert Steps(v, fate, t, cmds) == Steps(v2, fate, t + 2, Appends(d, rules));
    AppendsSteps(v2, fate, t + 2, d, rules);
    hide Steps, Worked;
  }

  lemma {:induction false} AppendsOn(d: Chain, rules: seq<Rule>)
    ensures AllOn(Appends(d, rules), d) && |Appends(d, rules)| == |rules|
  {
    if rules != [] {
      AppendsOn(d, rules[1..]);
    }
  }

  lemma {:induction false} FilledView(w: World, d: Chain, wan: string)
    ensures var w' := Filled(w, d, wan);
            && ViewOf(w'.kernel.fw, d)
               == ViewOf(w.kernel.fw, d).(content := FilledContent(ViewOf(w.kernel.fw, d).content, w.fate, w.now, RulesOf(d, wan)))
            && w'.now == w.now + 2 + |RulesOf(d, wan)| && w'.fate == w.fate
  {
    var rules := RulesOf(d, wan);
    hide RulesOf, BestEffort, Steps, ViewOf, FilledContent, AppendAll, AsCommands;
    var cmds := [NewChain(d), FlushChain(d)] + Appends(d, rules);
    AppendsOn(d, rules);
    assert AllOn(cmds, d);
    InstallCommands(d, wan);
    BestEffortView(w, cmds, d);
    FillSteps(ViewOf(w.kernel.fw, d), w.fate, w.now, d, rules);
  }

  lemma EnsureJumpContent(w: World, c: Chain, d: Chain)
    ensures ViewOf(EnsureJump(w, c).kernel.fw, d).content == ViewOf(w.kernel.fw, d).content
    ensures c != d ==> ViewOf(EnsureJump(w, c).kernel.fw, d) == ViewOf(w.kernel.fw, d)
  {
    hide Exec, ViewOf;
    ExecView(w, CheckJump(c), d);
    ExecView(Exec(w, Tables(CheckJump(c))).world, InsertJump(c), d);
  }

  /** The exact content of a chain after it was installed, whatever fails. */
  lemma {:induction false} InstallContent(w: World, d: Chain, wan: string)
    ensures ViewOf(InstallChain(w, d, wan).kernel.fw, d).content
         == FilledContent(ViewOf(w.kernel.fw, d).content, w.fate, w.now, RulesOf(d, wan))
  {
    hide RulesOf, BestEffort, ViewOf, FilledContent, EnsureJump, AppendAll;
    FilledView(w, d, wan);
    EnsureJumpContent(Filled(w, d, wan), d, d);
  }

  lemma {:induction false} InstallElsewhere(w: World, c: Chain, wan: string, d: Chain)
    requires c != d
    ensures ViewOf(InstallChain(w, c, wan).kernel.fw, d) == ViewOf(w.kernel.fw, d)
  {
    var rules := RulesOf(c, wan);
    AppendsElsewhere(c, rules, d);
    var cs := [Tables(NewChain(c)), Tables(FlushChain(c))] + AppendAll(c, rules);
    assert forall cmd <- cs :: Elsewhere(cmd, d);
    hide RulesOf, BestEffort, ViewOf, EnsureJump, AppendAll, Elsewhere;
    BestEffortElsewhere(w, cs, d);
    EnsureJumpContent(BestEffort(w, cs), c, d);
  }

  lemma {:induction false} AppendsElsewhere(c: Chain, rules: seq<Rule>, d: Chain)
    requires c != d
    ensures forall cmd <- AppendAll(c, rules) :: Elsewhere(cmd, d)
  {
    if rules != [] {
      AppendsElsewhere(c, rules[1..], d);
    }
  }

  /** The world in which the installation of all chains comes to `d`. */
  function StartWorld(w: World, wan: string, d: Chain): World {
    match d
    case InputChain => w
    case ForwardChain => InstallChain(w, InputChain, wan)
    case MssChain => InstallChain(InstallChain(w, InputChain, wan), ForwardChain, wan)
  }

  lemma {:induction false} FirewallUpContent(w: World, wan: string, d: Chain)
    ensures ViewOf(FirewallUp(w, wan).kernel.fw, d).content
         == FilledContent(ViewOf(w.kernel.fw, d).content, StartWorld(w, wan, d).fate, StartWorld(w, wan, d).now, RulesOf(d, wan))
  {
    hide RulesOf, ViewOf, FilledContent, InstallChain;
    var a := InstallChain(w, InputChain, wan);
    var b := InstallChain(a, ForwardChain, wan);
    match d {
      case InputChain =>
        InstallContent(w, d, wan);
        InstallElsewhere(a, ForwardChain, wan, d);
        InstallElsewhere(b, MssChain, wan, d);
      case ForwardChain =>
        InstallElsewhere(w, InputChain, wan, d);
        InstallContent(a, d, wan);
        InstallElsewhere(b, MssChain, wan, d);
      case MssChain =>
        InstallElsewhere(w, InputChain, wan, d);
        InstallElsewhere(a, ForwardChain, wan, d);
        InstallContent(b, d, wan);
    }
  }

  lemma {:induction false} StartWorldFate(w: World, wan: string, d: Chain)
    requires w.Valid()
    ensures StartWorld(w, wan, d).fate == w.fate
  {
    hide World.Valid, InstallChain, OnlyFirewall;
    var a := InstallChain(w, InputChain, wan);
    InstallChainOnlyFirewall(w, InputChain, wan);
    OnlyFirewallValid(w, a);
    InstallChainOnlyFirewall(a, ForwardChain, wan);
    OnlyFirewallValid(a, InstallChain(a, ForwardChain, wan));
  }

  /** The instant at which a reconcile that gets there starts to install `d`. */
  function InstallInstant(w: World, c: Config, applied: AppliedState, d: Chain): nat {
    StartWorld(BeforeFirewall(Teardown(w, applied), c), c.server.wanInterface, d).now
  }

  /** The content of each chain after a reconcile that reports success, exactly, whatever best-effort
      command failed in it. */
  lemma {:induction false} ReconciledContent(w: World, c: Config, applied: AppliedState, d: Chain)
    requires w.Valid() && c.tunnel.enabled && Reconcile(w, c, true, applied).err.None?
    ensures var torn := TornDown(ViewOf(w.kernel.fw, d), w.fate, w.now + DeletionInstant(d));
            ViewOf(Reconcile(w, c, true, applied).world.kernel.fw, d).content
            == FilledContent(torn.content, w.fate, InstallInstant(w, c, applied, d), RulesOf(d, c.server.wanInterface))
  {
    hide World.Valid, World.Calm, Teardown, Establish, Reduced, BeforeFirewall, StartWorld, FirewallUp, ViewOf,
         FilledContent, TornDown, DeletionInstant, RulesOf;
    var down := Teardown(w, applied);
    TeardownReduces(w, applied);
    ReducedValid(w, down);
    TeardownView(w, applied, d);
    EstablishBefore(down, c);
    var ready := BeforeFirewall(down, c);
    FirewallUpContent(ready, c.server.wanInterface, d);
    StartWorldFate(ready, c.server.wanInterface, d);
    SameFateLater(w, down);
  }

  lemma SameFateLater(w: World, w': World)
    requires Onward(w, w')
    ensures w'.fate == w.fate
  {
  }

  /** Exactness with failures. After a reconcile that reports success a chain holds exactly its rules if and
      only if it exists and what creating and flushing left in it, followed by the rules whose appends
      worked, makes up those rules; in particular, where it was emptied, exactly if every append worked. */
  lemma {:induction false} RulesExactIff(w: World, c: Config, applied: AppliedState, d: Chain)
    requires w.Valid() && c.tunnel.enabled && Reconcile(w, c, true, applied).err.None?
    ensures var t := InstallInstant(w, c, applied, d);
            var base := Base(TornDown(ViewOf(w.kernel.fw, d), w.fate, w.now + DeletionInstant(d)).content, w.fate, t);
            var rules := RulesOf(d, c.server.wanInterface);
            && (ViewOf(Reconcile(w, c, true, applied).world.kernel.fw, d).content == Some(rules) <==>
                base.Some? && base.value + Worked(w.fate, t + 2, rules) == rules)
            && (base == Some([]) ==>
                (ViewOf(Reconcile(w, c, true, applied).world.kernel.fw, d).content == Some(rules) <==>
                 AllWork(w.fate, t + 2, |rules|)))
  {
    hide World.Valid, Reconcile, ViewOf, TornDown, DeletionInstant, RulesOf, Worked, InstallInstant, Base, AllWork;
    ReconciledContent(w, c, applied, d);
    var t := InstallInstant(w, c, applied, d);
    var rules := RulesOf(d, c.server.wanInterface);
    WorkedAllIff(w.fate, t + 2, rules);
    assert [] + Worked(w.fate, t + 2, rules) == Worked(w.fate, t + 2, rules);
  }
}
