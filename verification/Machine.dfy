/** The backend as the program that it is: commands run one after the other on a kernel that each of
    them changes. Every method is proved against the specification in module Backend. */
module Machine {
  import opened Options
  import opened Text
  import opened Addresses
  import opened Kernel
  import opened Config
  import opened Backend
  import opened Listing
  import opened Records
  import opened TeardownLaws
  import opened LinkLaws
  import Spec = Backend

  /** Runs commands in the kernel's world. What they print matters only for the listing of a device's IPv6
      addresses. */
  class CommandRunner {
    var world: World
    const console: Console

    constructor (w: World, console: Console)
      ensures world == w && this.console == console
    {
      world := w;
      this.console := console;
    }

    method CombinedOutput(c: Command) returns (ok: bool, output: string)
      modifies this`world
      ensures Done(world, ok) == Exec(old(world), c)
      ensures ok && c.Read? && c.query.ShowAddr6? ==> output == Output(console, world.kernel.net, c.query.dev)
    {
      var d := Exec(world, c);
      world := d.world;
      ok := d.ok;
      output := if ok && c.Read? && c.query.ShowAddr6? then Output(console, world.kernel.net, c.query.dev) else "";
    }
  }

  lemma BestEffortStep(w: World, c: Command, rest: seq<Command>)
    ensures BestEffort(w, [c] + rest) == BestEffort(Exec(w, c).world, rest)
  {
    hide Exec;
    assert ([c] + rest)[1..] == rest;
  }

  class SystemBackend {
    const runner: CommandRunner

    constructor (runner: CommandRunner)
      ensures this.runner == runner
    {
      this.runner := runner;
    }

    method Run(c: Command) returns (err: Option<Failure>)
      modifies runner
      ensures Outcome(runner.world, err) == Spec.Run(old(runner.world), c)
    {
      hide Exec;
      var ok, _ := runner.CombinedOutput(c);
      err := if ok then None else Some(CommandFailed(c));
    }

    method RunBestEffort(c: Command)
      modifies runner
      ensures runner.world == Exec(old(runner.world), c).world
    {
      hide Exec;
      var _, _ := runner.CombinedOutput(c);
    }

    method RemoveJump(chain: Chain)
      modifies runner
      ensures runner.world == Exec(old(runner.world), Tables(DeleteJump(chain))).world
    {
      RunBestEffort(Tables(DeleteJump(chain)));
    }

    method EnsureJump(chain: Chain)
      modifies runner
      ensures runner.world == Spec.EnsureJump(old(runner.world), chain)
    {
      hide Exec;
      var ok, _ := runner.CombinedOutput(Tables(CheckJump(chain)));
      if !ok {
        RunBestEffort(Tables(InsertJump(chain)));
      }
    }

    // ---------------------------------------------------------------- teardown

    method RemoveChain(chain: Chain)
      modifies runner
      ensures runner.world
           == BestEffort(old(runner.world), [Tables(DeleteJump(chain)), Tables(FlushChain(chain)), Tables(DeleteChain(chain))])
    {
      hide Exec, BestEffort;
      var cs := [Tables(FlushChain(chain)), Tables(DeleteChain(chain))];
      assert [Tables(DeleteJump(chain)), Tables(FlushChain(chain)), Tables(DeleteChain(chain))] == [Tables(DeleteJump(chain))] + cs;
      BestEffortStep(runner.world, Tables(DeleteJump(chain)), cs);
      RemoveJump(chain);
      assert cs == [Tables(FlushChain(chain))] + [Tables(DeleteChain(chain))];
      BestEffortStep(runner.world, Tables(FlushChain(chain)), [Tables(DeleteChain(chain))]);
      RunBestEffort(Tables(FlushChain(chain)));
      BestEffortOne(runner.world, Tables(DeleteChain(chain)));
      RunBestEffort(Tables(DeleteChain(chain)));
    }

    method RemoveFirewall()
      modifies runner
      ensures runner.world == BestEffort(old(runner.world), FIREWALL_TEARDOWN)
    {
      var i := [Tables(DeleteJump(InputChain)), Tables(FlushChain(InputChain)), Tables(DeleteChain(InputChain))];
      var f := [Tables(DeleteJump(ForwardChain)), Tables(FlushChain(ForwardChain)), Tables(DeleteChain(ForwardChain))];
      var m := [Tables(DeleteJump(MssChain)), Tables(FlushChain(MssChain)), Tables(DeleteChain(MssChain))];
      assert FIREWALL_TEARDOWN == i + (f + m);
      hide Exec, BestEffort;
      BestEffortAppend(runner.world, i, f + m);
      RemoveChain(InputChain);
      BestEffortAppend(runner.world, f, m);
      RemoveChain(ForwardChain);
      RemoveChain(MssChain);
    }

    method RemoveAddresses(networks: seq<NetworkStatus>)
      modifies runner
      ensures runner.world == BestEffort(old(runner.world), AddressTeardown(networks))
    {
      hide Exec, GatewayForPrefix;
      assert networks[0..] == networks;
      for i := 0 to |networks|
        invariant BestEffort(runner.world, AddressTeardown(networks[i..])) == BestEffort(old(runner.world), AddressTeardown(networks))
      {
        var gateway := GatewayForPrefix(networks[i].prefix);
        AddressTeardownStep(networks, i);
        if gateway.None? {
          assert [] + AddressTeardown(networks[i + 1..]) == AddressTeardown(networks[i + 1..]);
          continue;
        }
        var c := Addr(AddrDel(networks[i].iface, gateway.value));
        assert AddressTeardown(networks[i..]) == [c] + AddressTeardown(networks[i + 1..]);
        hide BestEffort, AddressTeardown;
        BestEffortStep(runner.world, c, AddressTeardown(networks[i + 1..]));
        RunBestEffort(c);
      }
    }

    method RemoveRoutes(applied: AppliedState)
      modifies runner
      ensures runner.world == BestEffort(old(runner.world), RouteTeardown(applied) + TUNNEL_TEARDOWN)
    {
      hide Exec, BestEffort;
      if applied.remoteEndpoint != "" && applied.wanInterface != "" {
        BestEffortStep(runner.world, Routing(RouteDel(applied.remoteEndpoint, applied.wanInterface)), TUNNEL_TEARDOWN);
        RunBestEffort(Routing(RouteDel(applied.remoteEndpoint, applied.wanInterface)));
      } else {
        assert RouteTeardown(applied) + TUNNEL_TEARDOWN == TUNNEL_TEARDOWN;
      }
      assert TUNNEL_TEARDOWN == [Routing(Route6Del)] + [Tunnel(TunnelDel)];
      BestEffortStep(runner.world, Routing(Route6Del), [Tunnel(TunnelDel)]);
      RunBestEffort(Routing(Route6Del));
      BestEffortOne(runner.world, Tunnel(TunnelDel));
      RunBestEffort(Tunnel(TunnelDel));
    }

    method Teardown(applied: AppliedState)
      modifies runner
      ensures runner.world == Spec.Teardown(old(runner.world), applied)
    {
      hide Exec, BestEffort, AddressTeardown, RouteTeardown;
      TeardownParts(runner.world, applied);
      RemoveFirewall();
      RemoveAddresses(applied.networks);
      RemoveRoutes(applied);
    }

    // ---------------------------------------------------------------- reading

    method GetWANIPv4(dev: string) returns (value: Option<string>, err: Option<Failure>)
      modifies runner
      ensures Reading(runner.world, value, err) == ReadWAN4(old(runner.world), dev)
    {
      hide Exec;
      var ok, _ := runner.CombinedOutput(Read(ShowAddr4(dev)));
      if !ok || dev !in runner.world.kernel.net.wan4 {
        return None, Some(NoWANAddress(dev));
      }
      return Some(runner.world.kernel.net.wan4[dev]), None;
    }

    method ResolveTunnelMTU(configured: int, wan: string) returns (value: Option<int>, err: Option<Failure>)
      modifies runner
      ensures Reading(runner.world, value, err) == ResolveMTU(old(runner.world), configured, wan)
    {
      hide Exec;
      if configured > 0 {
        return Some(configured), None;
      }
      var ok, _ := runner.CombinedOutput(Read(ShowLink(wan)));
      if !ok || wan !in runner.world.kernel.net.links {
        return None, Some(MTUUnreadable(wan));
      }
      var resolved := runner.world.kernel.net.links[wan] - TUNNEL_OVERHEAD;
      if resolved < MINIMUM_IPV6_MTU {
        return None, Some(MTUBelowMinimum(resolved));
      }
      return Some(resolved), None;
    }

    method QueryInterfaceIPv6Address(dev: string, text: PrefixText) returns (value: Option<AddressState>, err: Option<Failure>)
      modifies runner
      ensures Reading(runner.world, value, err) == QueryAddress(old(runner.world), dev, text)
    {
      hide Exec, Output, StateInLines, BrokenInLines, StateOf, Split;
      var desired := text.Parse();
      if desired.None? {
        return None, Some(PrefixUnparsable(text));
      }
      var ok, output := runner.CombinedOutput(Read(ShowAddr6(dev)));
      if !ok {
        return None, Some(AddressesUnreadable(dev));
      }
      OutputTells(runner.console, runner.world.kernel.net, dev, desired.value);
      var state := FindIPv6PrefixState(output, desired.value, runner.console.parse);
      return Some(state), None;
    }

    // ---------------------------------------------------------------- addresses

    method EnsureIPv6AddressPresent(dev: string, text: PrefixText) returns (err: Option<Failure>)
      modifies runner
      ensures Outcome(runner.world, err) == EnsureAddress(old(runner.world), dev, text)
    {
      hide Exec, RunAll, Spec.Run, QueryAddress;
      var state: Option<AddressState>;
      state, err := QueryInterfaceIPv6Address(dev, text);
      if err.Some? {
        return;
      }
      var add := Addr(AddrAdd(dev, text));
      if state == Some(Healthy) {
        return None;
      }
      if state == Some(Unhealthy) {
        var del := Addr(AddrDel(dev, text));
        RunAllTwo(runner.world, del, add);
        err := Run(del);
        if err.Some? {
          return;
        }
      }
      RunAllOne(runner.world, add);
      err := Run(add);
    }

    method EnsureLANInterfaceReady(dev: string) returns (err: Option<Failure>)
      modifies runner
      ensures Outcome(runner.world, err) == ReadyInterface(old(runner.world), dev)
    {
      hide Exec, RunAll, Spec.Run, Network.BrokenLinkLocal, Output, BrokenInLines, Split;
      err := Run(Addr(AcceptDadOff(dev)));
      if err.Some? {
        return;
      }
      var ok, output := runner.CombinedOutput(Read(ShowAddr6(dev)));
      if !ok {
        return Some(AddressesUnreadable(dev));
      }
      OutputTellsBroken(runner.console, runner.world.kernel.net, dev);
      var broken := HasProblematicLinkLocal(output, runner.console.parse);
      if !broken {
        return None;
      }
      var off, on := Addr(DisableIPv6(dev)), Addr(EnableIPv6(dev));
      RunAllTwo(runner.world, off, on);
      err := Run(off);
      if err.Some? {
        return;
      }
      RunAllOne(runner.world, on);
      err := Run(on);
    }

    /** The LAN loop of a reconcile; a device is made ready the first time it comes up. */
    method EnsureNetworks(networks: seq<NetworkConfig>) returns (err: Option<Failure>)
      modifies runner
      ensures Outcome(runner.world, err) == ReadyNetworks(old(runner.world), networks, {})
    {
      hide Exec, EnsureAddress, ReadyInterface, GatewayForPrefix;
      var managed: set<string> := {};
      assert networks[0..] == networks;
      for i := 0 to |networks|
        invariant ReadyNetworks(runner.world, networks[i..], managed) == ReadyNetworks(old(runner.world), networks, {})
      {
        var network := networks[i];
        assert networks[i..][0] == network && networks[i..][1..] == networks[i + 1..];
        if network.iface !in managed {
          err := EnsureLANInterfaceReady(network.iface);
          if err.Some? {
            return;
          }
        }
        var gateway := GatewayForPrefix(network.prefix);
        if gateway.None? {
          return Some(GatewayUnparsable(network.prefix));
        }
        err := EnsureIPv6AddressPresent(network.iface, gateway.value);
        if err.Some? {
          return;
        }
        managed := managed + {network.iface};
      }
      assert networks[|networks|..] == [];
      return None;
    }

    method RepairGateways(networks: seq<NetworkConfig>) returns (err: Option<Failure>)
      modifies runner
      ensures Outcome(runner.world, err) == RepairNetworks(old(runner.world), networks)
    {
      hide Exec, EnsureAddress, GatewayForPrefix;
      assert networks[0..] == networks;
      for i := 0 to |networks|
        invariant RepairNetworks(runner.world, networks[i..]) == RepairNetworks(old(runner.world), networks)
      {
        var network := networks[i];
        assert networks[i..][0] == network && networks[i..][1..] == networks[i + 1..];
        var gateway := GatewayForPrefix(network.prefix);
        if gateway.None? {
          return Some(GatewayUnparsable(network.prefix));
        }
        err := EnsureIPv6AddressPresent(network.iface, gateway.value);
        if err.Some? {
          return;
        }
      }
      assert networks[|networks|..] == [];
      return None;
    }

    method RepairAddresses(config: ConfigRecord) returns (err: Option<Failure>)
      modifies runner
      ensures Outcome(runner.world, err) == Spec.RepairAddresses(old(runner.world), config.Value())
    {
      hide Exec, EnsureAddress, RepairNetworks;
      if !config.tunnel.enabled {
        return None;
      }
      err := EnsureIPv6AddressPresent(TUNNEL, config.tunnel.localIPv6);
      if err.Some? || !config.lan.enabled {
        return;
      }
      err := RepairGateways(config.lan.networks[..]);
    }

    // ---------------------------------------------------------------- reconcile

    method InstallInputChain(wan: string)
      modifies runner
      ensures runner.world == InstallChain(old(runner.world), InputChain, wan)
    {
      hide Exec, BestEffort, Spec.EnsureJump;
      var r := AcceptProtocol41(wan);
      RuleCommands(InputChain, [r]);
      FilledStep(runner.world, InputChain, wan, [Tables(AppendRule(InputChain, r))]);
      RunBestEffort(Tables(NewChain(InputChain)));
      RunBestEffort(Tables(FlushChain(InputChain)));
      BestEffortOne(runner.world, Tables(AppendRule(InputChain, r)));
      RunBestEffort(Tables(AppendRule(InputChain, r)));
      EnsureJump(InputChain);
    }

    method InstallForwardChain(wan: string)
      modifies runner
      ensures runner.world == InstallChain(old(runner.world), ForwardChain, wan)
    {
      hide Exec, BestEffort, Spec.EnsureJump;
      var a := Tables(AppendRule(ForwardChain, AcceptEstablishedIn));
      var b := Tables(AppendRule(ForwardChain, AcceptOut));
      var c := Tables(AppendRule(ForwardChain, DropNewIn));
      ForwardCommands(wan);
      FilledStep(runner.world, ForwardChain, wan, [a] + ([b] + [c]));
      RunBestEffort(Tables(NewChain(ForwardChain)));
      RunBestEffort(Tables(FlushChain(ForwardChain)));
      BestEffortStep(runner.world, a, [b] + [c]);
      RunBestEffort(a);
      BestEffortStep(runner.world, b, [c]);
      RunBestEffort(b);
      BestEffortOne(runner.world, c);
      RunBestEffort(c);
      EnsureJump(ForwardChain);
    }

    method InstallMssChain(wan: string)
      modifies runner
      ensures runner.world == InstallChain(old(runner.world), MssChain, wan)
    {
      hide Exec, BestEffort, Spec.EnsureJump;
      RuleCommands(MssChain, [ClampMss]);
      FilledStep(runner.world, MssChain, wan, [Tables(AppendRule(MssChain, ClampMss))]);
      RunBestEffort(Tables(NewChain(MssChain)));
      RunBestEffort(Tables(FlushChain(MssChain)));
      BestEffortOne(runner.world, Tables(AppendRule(MssChain, ClampMss)));
      RunBestEffort(Tables(AppendRule(MssChain, ClampMss)));
      EnsureJump(MssChain);
    }

    method BringUpTunnel(config: ConfigRecord, wan4: string) returns (err: Option<Failure>)
      modifies runner
      ensures Outcome(runner.world, err) == BringUpLink(old(runner.world), config.Value(), wan4)
    {
      hide Exec, BestEffort, RunAll, Spec.Run;
      var r := Routing(RouteReplace(config.tunnel.remoteEndpoint, config.server.wanInterface, wan4));
      var a := Tunnel(TunnelAdd(config.tunnel.remoteEndpoint, wan4, config.tunnel.ttl));
      var m := Tunnel(LinkSetMtu(config.tunnel.mtu));
      var u := Tunnel(LinkSetUp);
      assert LinkScript(config.Value(), wan4) == [r] + ([a] + ([m] + [u]));
      BestEffortOne(runner.world, Read(Modprobe));
      RunBestEffort(Read(Modprobe));
      RunAllStep(runner.world, r, [a] + ([m] + [u]));
      err := Run(r);
      if err.Some? {
        return;
      }
      RunAllStep(runner.world, a, [m] + [u]);
      err := Run(a);
      if err.Some? {
        return;
      }
      RunAllStep(runner.world, m, [u]);
      err := Run(m);
      if err.Some? {
        return;
      }
      RunAllOne(runner.world, u);
      err := Run(u);
    }

    method AddAddresses(config: ConfigRecord) returns (err: Option<Failure>)
      modifies runner
      ensures Outcome(runner.world, err) == BringUpAddresses(old(runner.world), config.Value())
    {
      hide Exec, EnsureAddress, ReadyNetworks, Spec.Run;
      err := EnsureIPv6AddressPresent(TUNNEL, config.tunnel.localIPv6);
      if err.Some? {
        return;
      }
      err := Run(Routing(ForwardingOn));
      if err.Some? || !config.lan.enabled {
        return;
      }
      err := EnsureNetworks(config.lan.networks[..]);
    }

    /** selectDefaultRouteSource: the tunnel's own address, or else the first gateway that may be used. */
    method SelectDefaultRouteSource(config: ConfigRecord) returns (source: SourceChoice)
      ensures source == SelectSource(config.Value())
    {
      hide IsPreferredSource, GatewayForPrefix;
      var text, networks := config.tunnel.localIPv6, config.lan.networks[..];
      var tunnelAddress := text.Parse();
      if tunnelAddress.None? {
        return BadSource(SourceUnparsable(text));
      }
      if IsPreferredSource(tunnelAddress.value.addr) {
        return Source(tunnelAddress.value.addr);
      }
      assert networks[0..] == networks;
      for i := 0 to |networks|
        invariant SourceOfNetworks(networks[i..]) == SourceOfNetworks(networks)
      {
        assert networks[i..][0] == networks[i] && networks[i..][1..] == networks[i + 1..];
        var gateway := GatewayForPrefix(networks[i].prefix);
        if gateway.None? {
          return BadSource(GatewayUnparsable(networks[i].prefix));
        }
        var gatewayAddress := gateway.value.Parse();
        if gatewayAddress.None? {
          return BadSource(SourceUnparsable(gateway.value));
        }
        if IsPreferredSource(gatewayAddress.value.addr) {
          return Source(gatewayAddress.value.addr);
        }
      }
      assert networks[|networks|..] == [];
      return NoSource;
    }

    method SetDefaultRoute(config: ConfigRecord) returns (err: Option<Failure>)
      modifies runner
      ensures Outcome(runner.world, err) == BringUpRoute(old(runner.world), config.Value())
    {
      hide Exec, SelectSource, Spec.Run;
      var source := SelectDefaultRouteSource(config);
      match source {
        case BadSource(failure) => err := Some(failure);
        case NoSource => err := Run(Routing(Route6Replace(None)));
        case Source(a) => err := Run(Routing(Route6Replace(Some(a))));
      }
    }

    /** Reconcile: tears down what was applied, then brings everything up. The MTU it resolves is written
        into the config it was given. */
    method Reconcile(config: ConfigRecord, valid: bool, applied: AppliedState) returns (err: Option<Failure>)
      modifies runner, config
      ensures Reconciled(runner.world, config.Value(), err) == Spec.Reconcile(old(runner.world), old(config.Value()), valid, applied)
    {
      hide Exec, Spec.Teardown, ReadWAN4, ResolveMTU, BringUpLink, BringUpAddresses, BringUpRoute, InstallChain;
      Teardown(applied);
      if !valid || !config.tunnel.enabled {
        return None;
      }
      var wan := config.server.wanInterface;
      var wan4: Option<string>;
      wan4, err := GetWANIPv4(wan);
      if wan4.None? {
        return;
      }
      var mtu: Option<int>;
      mtu, err := ResolveTunnelMTU(config.tunnel.mtu, wan);
      if mtu.None? {
        return;
      }
      config.tunnel := config.tunnel.(mtu := mtu.value);
      err := BringUpTunnel(config, wan4.value);
      if err.Some? {
        return;
      }
      err := AddAddresses(config);
      if err.Some? {
        return;
      }
      err := SetDefaultRoute(config);
      if err.Some? {
        return;
      }
      InstallInputChain(wan);
      InstallForwardChain(wan);
      InstallMssChain(wan);
    }

    // ---------------------------------------------------------------- observation

    method CollectMissingManaged(config: ConfigRecord?) returns (value: Option<seq<MissingAddress>>, err: Option<Failure>)
      modifies runner
      ensures Reading(runner.world, value, err)
           == CollectMissing(old(runner.world), if config == null then None else Some(config.Value()))
    {
      hide Exec, QueryAddress, GatewayForPrefix;
      if config == null || !config.tunnel.enabled {
        return Some([]), None;
      }
      var text, networks := config.tunnel.localIPv6, config.lan.networks[..];
      var state: Option<AddressState>;
      state, err := QueryInterfaceIPv6Address(TUNNEL, text);
      if state.None? {
        return None, err;
      }
      var missing := AppendMissing([], TUNNEL, text, state.value);
      if !config.lan.enabled {
        return Some(missing), None;
      }
      assert networks[0..] == networks;
      ghost var before := runner.world;
      for i := 0 to |networks|
        invariant MissingNetworks(runner.world, networks[i..], missing)
               == MissingNetworks(before, networks, AppendMissing([], TUNNEL, text, state.value))
      {
        assert networks[i..][0] == networks[i] && networks[i..][1..] == networks[i + 1..];
        var gateway := GatewayForPrefix(networks[i].prefix);
        if gateway.None? {
          return None, Some(GatewayUnparsable(networks[i].prefix));
        }
        var found: Option<AddressState>;
        found, err := QueryInterfaceIPv6Address(networks[i].iface, gateway.value);
        if found.None? {
          return None, err;
        }
        missing := AppendMissing(missing, networks[i].iface, gateway.value, found.value);
      }
      assert networks[|networks|..] == [];
      return Some(missing), None;
    }

    method Observe(wan: string, config: ConfigRecord?) returns (observation: Observation, err: Option<Failure>)
      modifies runner
      ensures Observed(runner.world, observation, err)
           == Spec.Observe(old(runner.world), wan, if config == null then None else Some(config.Value()))
    {
      hide Exec, ReadWAN4, CollectMissing, IsBlank;
      var tunnelUp, _ := runner.CombinedOutput(Read(ShowLink(TUNNEL)));
      observation := Observation(tunnelUp, "", []);
      if !IsBlank(wan) {
        var wan4, wanErr := GetWANIPv4(wan);
        if wan4.Some? {
          observation := observation.(wan4 := wan4.value);
        }
      }
      var missing: Option<seq<MissingAddress>>;
      missing, err := CollectMissingManaged(config);
      if missing.Some? {
        observation := observation.(missing := missing.value);
      }
    }

    method Probe() returns (result: ProbeResult)
      modifies runner
      ensures Probed(runner.world, result) == Spec.Probe(old(runner.world))
    {
      hide Exec;
      var _, _ := runner.CombinedOutput(Read(RouteGet));
      var ms := runner.world.fate(runner.world.now).pingMs;
      var ok, _ := runner.CombinedOutput(Read(Ping));
      result := ProbeResult(ok, if ok then ms else 0);
    }
  }

  lemma RuleCommands(c: Chain, rules: seq<Rule>)
    requires |rules| == 1
    ensures AppendAll(c, rules) == [Tables(AppendRule(c, rules[0]))]
  {
    assert rules[1..] == [];
  }

  lemma ForwardCommands(wan: string)
    ensures AppendAll(ForwardChain, RulesOf(ForwardChain, wan))
         == [Tables(AppendRule(ForwardChain, AcceptEstablishedIn))]
            + ([Tables(AppendRule(ForwardChain, AcceptOut))] + [Tables(AppendRule(ForwardChain, DropNewIn))])
  {
    var rules := RulesOf(ForwardChain, wan);
    assert rules[1..] == [AcceptOut, DropNewIn];
    assert rules[1..][1..] == [DropNewIn];
    RuleCommands(ForwardChain, [DropNewIn]);
  }

  lemma FilledStep(w: World, c: Chain, wan: string, appends: seq<Command>)
    requires AppendAll(c, RulesOf(c, wan)) == appends
    ensures InstallChain(w, c, wan)
         == Spec.EnsureJump(BestEffort(Exec(Exec(w, Tables(NewChain(c))).world, Tables(FlushChain(c))).world, appends), c)
  {
    hide Exec, BestEffort, Spec.EnsureJump, AppendAll;
    assert [Tables(NewChain(c)), Tables(FlushChain(c))] + appends == [Tables(NewChain(c))] + ([Tables(FlushChain(c))] + appends);
    BestEffortStep(w, Tables(NewChain(c)), [Tables(FlushChain(c))] + appends);
    BestEffortStep(Exec(w, Tables(NewChain(c))).world, Tables(FlushChain(c)), appends);
  }

  lemma RunAllOne(w: World, c: Command)
    ensures RunAll(w, [c]) == Spec.Run(w, c)
  {
    hide Exec;
    assert [c][1..] == [];
  }

  lemma RunAllTwo(w: World, c: Command, d: Command)
    ensures RunAll(w, [c, d]) == if Spec.Run(w, c).err.None? then RunAll(Spec.Run(w, c).world, [d]) else Spec.Run(w, c)
  {
    hide Exec;
    assert [c, d][1..] == [d];
  }

  lemma TeardownParts(w: World, a: AppliedState)
    ensures Spec.Teardown(w, a)
         == BestEffort(BestEffort(BestEffort(w, FIREWALL_TEARDOWN), AddressTeardown(a.networks)), RouteTeardown(a) + TUNNEL_TEARDOWN)
  {
    hide BestEffort, AddressTeardown, RouteTeardown;
    var rest := RouteTeardown(a) + TUNNEL_TEARDOWN;
    assert TeardownScript(a) == FIREWALL_TEARDOWN + (AddressTeardown(a.networks) + rest);
    BestEffortAppend(w, FIREWALL_TEARDOWN, AddressTeardown(a.networks) + rest);
    BestEffortAppend(BestEffort(w, FIREWALL_TEARDOWN), AddressTeardown(a.networks), rest);
  }

  lemma AddressTeardownStep(ns: seq<NetworkStatus>, i: nat)
    requires i < |ns|
    ensures AddressTeardown(ns[i..])
         == (match GatewayForPrefix(ns[i].prefix)
             case None => []
             case Some(text) => [Addr(AddrDel(ns[i].iface, text))])
            + AddressTeardown(ns[i + 1..])
  {
    assert ns[i..][0] == ns[i] && ns[i..][1..] == ns[i + 1..];
  }
}
