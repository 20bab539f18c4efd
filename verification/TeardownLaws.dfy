/** What teardown removes. Its commands are run best-effort, so an address or route survives exactly
    when every command that should have deleted it failed. */
module TeardownLaws {
  import opened Options
  import opened Addresses
  import opened Kernel
  import opened Backend
  import opened AddressLaws

  /** A command that only takes things away. */
  predicate Removes(c: Command) {
    match c
    case Tables(f) => f.DeleteJump? || f.FlushChain? || f.DeleteChain?
    case Addr(a) => a.AddrDel?
    case Routing(r) => r.RouteDel? || r.Route6Del?
    case Tunnel(t) => t.TunnelDel?
    case Read(_) => false
  }

  /** The command deletes just this item. */
  predicate Deletes(c: Command, item: Item) {
    match item
    case LanAddress(dev, p) => c.Addr? && c.address.AddrDel? && c.address.dev == dev && c.address.text.Parse() == Some(p)
    case EndpointRoute(dev, e) => c == Routing(RouteDel(e, dev))
  }

  predicate AllRemove(cs: seq<Command>) {
    forall c <- cs :: Removes(c)
  }

  /** Switches are as before; addresses and routes only went away. */
  ghost predicate NetReduced(n: Network, n': Network) {
    && n'.dadOff == n.dadOff
    && n'.ipv6Off == n.ipv6Off
    && n'.forwarding == n.forwarding
    && (forall key: Key :: key in n'.addrs ==> key in n.addrs && n'.addrs[key] == n.addrs[key])
    && (forall e :: e in n'.routes ==> e in n.routes && n'.routes[e] == n.routes[e])
    && (n.tunnel.None? ==> n'.tunnel.None?)
  }

  ghost predicate Reduced(w: World, w': World) {
    && Onward(w, w')
    && w'.owned <= w.owned
    && NetReduced(w.kernel.net, w'.kernel.net)
  }

  lemma EffectReduces(k: Kernel, c: Command, f: Fate)
    requires Removes(c) && Effect(k, c, f).Some?
    ensures NetReduced(k.net, Effect(k, c, f).value.net)
    ensures Creates(c) == {}
  {
  }

  lemma ExecReduces(w: World, c: Command)
    requires w.Valid() && Removes(c)
    ensures Reduced(w, Exec(w, c).world)
  {
    ExecOnward(w, c);
    if Effect(w.kernel, c, w.fate(w.now)).Some? {
      EffectReduces(w.kernel, c, w.fate(w.now));
    }
    hide World.Valid, World.Calm, SameSurroundings, Onward, Effect, Present, Creates;
    assert Exec(w, c).world.owned <= w.owned;
  }

  lemma ReducedTrans(a: World, b: World, c: World)
    requires Reduced(a, b) && Reduced(b, c)
    ensures Reduced(a, c)
  {
    OnwardTrans(a, b, c);
    hide Onward;
  }

  lemma ReducedRefl(w: World)
    requires w.Valid()
    ensures Reduced(w, w)
  {
    hide World.Valid, World.Calm;
  }

  lemma {:induction false} BestEffortReduces(w: World, cs: seq<Command>)
    requires w.Valid() && AllRemove(cs)
    ensures Reduced(w, BestEffort(w, cs))
    decreases |cs|
  {
    hide World.Valid, Reduced, Exec;
    if cs == [] {
      ReducedRefl(w);
    } else {
      var w1 := Exec(w, cs[0]).world;
      ExecReduces(w, cs[0]);
      ReducedValid(w, w1);
      BestEffortReduces(w1, cs[1..]);
      ReducedTrans(w, w1, BestEffort(w, cs));
    }
  }

  lemma ReducedValid(w: World, w': World)
    requires Reduced(w, w')
    ensures w'.Valid() && Onward(w, w') && w'.owned <= w.owned
  {
  }

  lemma AddressTeardownRemoves(ns: seq<NetworkStatus>)
    ensures AllRemove(AddressTeardown(ns))
  {
  }

  lemma TeardownRemoves(a: AppliedState)
    ensures AllRemove(TeardownScript(a))
  {
    AddressTeardownRemoves(a.networks);
    FixedTeardownRemoves(a);
    hide AddressTeardown, RouteTeardown, Removes;
  }

  lemma FixedTeardownRemoves(a: AppliedState)
    ensures AllRemove(FIREWALL_TEARDOWN) && AllRemove(RouteTeardown(a)) && AllRemove(TUNNEL_TEARDOWN)
  {
  }

  // ---------------------------------------------------------------- survivors

  /** A deletion that is not sabotaged takes the item away; anything else leaves it. */
  lemma ExecDeletesIff(w: World, c: Command, item: Item)
    requires w.Valid() && Removes(c) && item in w.owned
    ensures item in Exec(w, c).world.owned <==> !Deletes(c, item) || w.fate(w.now).fails
  {
    assert Present(w.kernel.net, item) && (item.LanAddress? ==> item.dev != TUNNEL);
  }

  /** Every command of the script that deletes the item is made to fail when its turn comes; the
      script starts at instant `now` and every command takes one. */
  predicate AllDeletionsFail(fate: nat -> Fate, now: nat, cs: seq<Command>, item: Item)
    decreases |cs|
  {
    cs != [] ==>
      && (Deletes(cs[0], item) ==> fate(now).fails)
      && AllDeletionsFail(fate, now + 1, cs[1..], item)
  }

  lemma ExecTicks(w: World, c: Command)
    ensures Exec(w, c).world.now == w.now + 1
    ensures Exec(w, c).world.fate == w.fate
  {
  }

  lemma {:induction false} CalmDeletionWorks(fate: nat -> Fate, now: nat, cs: seq<Command>, item: Item)
    requires forall t: nat {:trigger fate(t)} :: t >= now ==> !fate(t).fails
    ensures AllDeletionsFail(fate, now, cs, item) <==> !SomeDeletes(cs, item)
    decreases |cs|
  {
    hide Deletes;
    if cs != [] {
      CalmDeletionWorks(fate, now + 1, cs[1..], item);
      SomeDeletesAppend([cs[0]], cs[1..], item);
      assert [cs[0]] + cs[1..] == cs;
      SomeDeletesOne(cs[0], item);
      hide SomeDeletes;
    }
  }

  lemma SomeDeletesOne(c: Command, item: Item)
    ensures SomeDeletes([c], item) <==> Deletes(c, item)
  {
    hide Deletes;
    assert [c][0] == c;
  }

  lemma {:induction false} NotDeleted(fate: nat -> Fate, now: nat, cs: seq<Command>, item: Item)
    requires !SomeDeletes(cs, item)
    ensures AllDeletionsFail(fate, now, cs, item)
    decreases |cs|
  {
    hide Deletes;
    if cs != [] {
      SomeDeletesAppend([cs[0]], cs[1..], item);
      assert [cs[0]] + cs[1..] == cs;
      SomeDeletesOne(cs[0], item);
      hide SomeDeletes;
      NotDeleted(fate, now + 1, cs[1..], item);
    }
  }

  /** The survivors of a best-effort teardown, exactly. */
  lemma {:induction false} SurvivesIff(w: World, cs: seq<Command>, item: Item)
    requires w.Valid() && AllRemove(cs) && item in w.owned
    ensures item in BestEffort(w, cs).owned <==> AllDeletionsFail(w.fate, w.now, cs, item)
    decreases |cs|
  {
    hide World.Valid, Exec, Reduced, Deletes;
    if cs != [] {
      var w1 := Exec(w, cs[0]).world;
      ExecDeletesIff(w, cs[0], item);
      ExecReduces(w, cs[0]);
      ReducedValid(w, w1);
      ExecTicks(w, cs[0]);
      BestEffortReduces(w1, cs[1..]);
      ReducedValid(w1, BestEffort(w1, cs[1..]));
      if item in w1.owned {
        SurvivesIff(w1, cs[1..], item);
      }
    }
  }

  // ---------------------------------------------------------------- footprint

  /** The item belongs to what an applied state says was installed. */
  predicate InFootprint(item: Item, a: AppliedState) {
    match item
    case LanAddress(dev, p) =>
      exists i :: 0 <= i < |a.networks| && a.networks[i].iface == dev && GatewayOf(a.networks[i].prefix) == Some(p)
    case EndpointRoute(dev, e) =>
      a.remoteEndpoint != "" && a.wanInterface != "" && a.remoteEndpoint == e && a.wanInterface == dev
  }

  predicate SomeDeletes(cs: seq<Command>, item: Item) {
    exists i :: 0 <= i < |cs| && Deletes(cs[i], item)
  }

  lemma SomeDeletesAppend(a: seq<Command>, b: seq<Command>, item: Item)
    ensures SomeDeletes(a + b, item) <==> SomeDeletes(a, item) || SomeDeletes(b, item)
  {
    hide Deletes;
    if SomeDeletes(a, item) {
      var i :| 0 <= i < |a| && Deletes(a[i], item);
      assert (a + b)[i] == a[i];
    }
    if SomeDeletes(b, item) {
      var i :| 0 <= i < |b| && Deletes(b[i], item);
      assert (a + b)[|a| + i] == b[i];
    }
    if SomeDeletes(a + b, item) {
      var i :| 0 <= i < |a + b| && Deletes((a + b)[i], item);
      assert i < |a| ==> (a + b)[i] == a[i];
      assert i >= |a| ==> (a + b)[i] == b[i - |a|];
    }
  }

  ghost predicate GatewayAmong(ns: seq<NetworkStatus>, item: Item) {
    item.LanAddress? && exists i :: 0 <= i < |ns| && ns[i].iface == item.dev && GatewayOf(ns[i].prefix) == Some(item.prefix)
  }

  lemma GatewayAmongStep(ns: seq<NetworkStatus>, item: Item)
    requires ns != []
    ensures GatewayAmong(ns, item) <==>
            (item.LanAddress? && ns[0].iface == item.dev && GatewayOf(ns[0].prefix) == Some(item.prefix)) || GatewayAmong(ns[1..], item)
  {
    hide GatewayOf;
    if GatewayAmong(ns[1..], item) {
      var i :| 0 <= i < |ns[1..]| && ns[1..][i].iface == item.dev && GatewayOf(ns[1..][i].prefix) == Some(item.prefix);
      assert ns[1..][i] == ns[i + 1];
    }
    if GatewayAmong(ns, item) {
      var i :| 0 <= i < |ns| && ns[i].iface == item.dev && GatewayOf(ns[i].prefix) == Some(item.prefix);
      assert i > 0 ==> ns[1..][i - 1] == ns[i];
    }
  }

  lemma {:induction false} AddressTeardownDeletes(ns: seq<NetworkStatus>, item: Item)
    ensures SomeDeletes(AddressTeardown(ns), item) <==> GatewayAmong(ns, item)
  {
    if ns != [] {
      var text := GatewayForPrefix(ns[0].prefix);
      var first := if text.None? then [] else [Addr(AddrDel(ns[0].iface, text.value))];
      SomeDeletesAppend(first, AddressTeardown(ns[1..]), item);
      AddressTeardownDeletes(ns[1..], item);
      GatewayAmongStep(ns, item);
      assert SomeDeletes(first, item) <==>
             item.LanAddress? && ns[0].iface == item.dev && GatewayOf(ns[0].prefix) == Some(item.prefix) by {
        FirstDeletes(ns[0], item);
      }
      hide SomeDeletes, GatewayAmong, GatewayForPrefix;
    }
  }

  lemma FirstDeletes(n: NetworkStatus, item: Item)
    ensures var text := GatewayForPrefix(n.prefix);
            SomeDeletes(if text.None? then [] else [Addr(AddrDel(n.iface, text.value))], item) <==>
            item.LanAddress? && n.iface == item.dev && GatewayOf(n.prefix) == Some(item.prefix)
  {
    var text := GatewayForPrefix(n.prefix);
    if text.Some? {
      var cs := [Addr(AddrDel(n.iface, text.value))];
      assert SomeDeletes(cs, item) <==> Deletes(cs[0], item);
    }
  }

  /** Teardown tries to delete exactly the footprint of what was applied. */
  lemma {:induction false} TeardownDeletesFootprint(a: AppliedState, item: Item)
    ensures SomeDeletes(TeardownScript(a), item) <==> InFootprint(item, a)
  {
    AddressTeardownDeletes(a.networks, item);
    SomeDeletesAppend(FIREWALL_TEARDOWN, AddressTeardown(a.networks), item);
    SomeDeletesAppend(FIREWALL_TEARDOWN + AddressTeardown(a.networks), RouteTeardown(a), item);
    SomeDeletesAppend(FIREWALL_TEARDOWN + AddressTeardown(a.networks) + RouteTeardown(a), TUNNEL_TEARDOWN, item);
    assert !SomeDeletes(FIREWALL_TEARDOWN, item) && !SomeDeletes(TUNNEL_TEARDOWN, item);
    if item.EndpointRoute? {
      RouteTeardownDeletes(a, item);
    } else {
      assert !SomeDeletes(RouteTeardown(a), item);
    }
    hide SomeDeletes, AddressTeardown, RouteTeardown;
  }

  lemma RouteTeardownDeletes(a: AppliedState, item: Item)
    requires item.EndpointRoute?
    ensures SomeDeletes(RouteTeardown(a), item) <==> InFootprint(item, a)
  {
    if a.remoteEndpoint != "" && a.wanInterface != "" {
      assert RouteTeardown(a)[0] == Routing(RouteDel(a.remoteEndpoint, a.wanInterface));
    }
  }

  /** What a teardown leaves behind of what the daemon owned: everything outside the footprint, and
      of the footprint exactly the items all of whose deletions failed. In particular, if no command
      fails without reason, nothing of the footprint is left. */
  lemma TeardownLeaves(w: World, a: AppliedState, item: Item)
    requires w.Valid() && item in w.owned
    ensures item in Teardown(w, a).owned <==> AllDeletionsFail(w.fate, w.now, TeardownScript(a), item)
    ensures !InFootprint(item, a) ==> item in Teardown(w, a).owned
    ensures InFootprint(item, a) && w.Calm() ==> item !in Teardown(w, a).owned
  {
    TeardownRemoves(a);
    SurvivesIff(w, TeardownScript(a), item);
    TeardownDeletesFootprint(a, item);
    hide World.Valid, InFootprint, TeardownScript, BestEffort, Deletes, SomeDeletes, AllDeletionsFail;
    var cs := TeardownScript(a);
    if w.Calm() {
      CalmDeletionWorks(w.fate, w.now, cs, item);
    }
    if !SomeDeletes(cs, item) {
      NotDeleted(w.fate, w.now, cs, item);
    }
  }

  lemma TeardownReduces(w: World, a: AppliedState)
    requires w.Valid()
    ensures Reduced(w, Teardown(w, a))
  {
    TeardownRemoves(a);
    BestEffortReduces(w, TeardownScript(a));
    hide World.Valid, TeardownScript, Reduced, BestEffort;
  }

  /** Without spurious failures the tunnel device is gone afterwards. */
  lemma TeardownRemovesTunnel(w: World, a: AppliedState)
    requires w.Valid() && w.Calm()
    ensures Teardown(w, a).kernel.net.tunnel.None?
  {
    var front := FIREWALL_TEARDOWN + AddressTeardown(a.networks) + RouteTeardown(a) + [Routing(Route6Del)];
    var last := Tunnel(TunnelDel);
    assert TeardownScript(a) == front + [last];
    BestEffortAppend(w, front, [last]);
    TeardownRemoves(a);
    assert AllRemove(front);
    BestEffortReduces(w, front);
    var w1 := BestEffort(w, front);
    ReducedValid(w, w1);
    hide BestEffort, Reduced, World.Valid, AddressTeardown, RouteTeardown, TeardownScript;
    BestEffortOne(w1, last);
    assert w1.Calm();
    assert !w1.fate(w1.now).fails;
  }

  lemma BestEffortOne(w: World, c: Command)
    ensures BestEffort(w, [c]) == Exec(w, c).world
  {
    hide Exec;
    assert [c][1..] == [];
  }
}
