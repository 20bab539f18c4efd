/** What the address operations of the backend establish and what they leave alone. */
module AddressLaws {
  import opened Addresses
  import opened Kernel
  import opened Backend

  type Key = (string, Prefix)

  /** The later world is consistent, in the same surroundings, and calm if the earlier one was. */
  ghost predicate Onward(w: World, w': World) {
    && w'.Valid()
    && SameSurroundings(w, w')
    && (w.Calm() ==> w'.Calm())
  }

  lemma OnwardTrans(a: World, b: World, c: World)
    requires Onward(a, b) && Onward(b, c)
    ensures Onward(a, c)
  {
    hide World.Valid, World.Calm;
  }

  lemma {:induction false} ExecOnward(w: World, c: Command)
    requires w.Valid()
    ensures Onward(w, Exec(w, c).world)
  {
    ExecKeeps(w, c);
    hide Exec, World.Valid, World.Calm;
  }

  /** The two tables agree on one key. */
  predicate SameEntry(a: AddressTable, b: AddressTable, key: Key) {
    (key in a <==> key in b) && (key in a ==> a[key] == b[key])
  }

  /** Nothing changed but, possibly, entries of keys satisfying... none but `key`. */
  ghost predicate OnlyEntry(k: Kernel, k': Kernel, key: Key) {
    && k'.fw == k.fw
    && k'.net == k.net.(addrs := k'.net.addrs)
    && forall other: Key :: other != key ==> SameEntry(k.net.addrs, k'.net.addrs, other)
  }

  /** An address of a device that cannot come up tentative. */
  predicate NoDad(n: Network, dev: string) {
    dev == TUNNEL || dev in n.dadOff
  }

  predicate IsHealthy(n: Network, dev: string, text: PrefixText) {
    text.Parse().Some? && StateOf(n, dev, text.Parse().value) == Healthy
  }

  predicate IsThere(n: Network, dev: string, text: PrefixText) {
    text.Parse().Some? && (dev, text.Parse().value) in n.addrs
  }

  // ---------------------------------------------------------------- adding and replacing

  lemma AddAddress(w: World, dev: string, text: PrefixText)
    requires w.Valid() && text.Parse().Some?
    ensures var o := RunAll(w, [Addr(AddrAdd(dev, text))]); var p := text.Parse().value;
            && Onward(w, o.world)
            && OnlyEntry(w.kernel, o.world.kernel, (dev, p))
            && (o.err.Some? ==> o.world.kernel == w.kernel)
            && (o.err.None? ==> (dev, p) in o.world.kernel.net.addrs)
            && (o.err.None? && NoDad(w.kernel.net, dev) ==> o.world.kernel.net.addrs[(dev, p)])
            && o.world.owned <= w.owned + {LanAddress(dev, p)}
  {
    var c := Addr(AddrAdd(dev, text));
    ExecOnward(w, c);
    hide World.Valid, World.Calm, SameSurroundings, Onward;
    RunOne(w, c);
  }

  lemma RunOne(w: World, c: Command)
    ensures RunAll(w, [c]) == Run(w, c)
  {
    hide Exec;
    assert [c][1..] == [];
  }

  lemma RunTwo(w: World, c: Command, d: Command)
    ensures RunAll(w, [c, d]) == if Run(w, c).err.None? then RunAll(Run(w, c).world, [d]) else Run(w, c)
  {
    hide Exec;
    assert [c, d][1..] == [d];
  }

  lemma AddSucceeds(w: World, dev: string, text: PrefixText)
    requires w.Valid() && w.Calm() && text.Parse().Some?
    requires text.Parse().value.addr.is6 && w.kernel.net.HasDevice(dev) && dev !in w.kernel.net.ipv6Off
    requires (dev, text.Parse().value) !in w.kernel.net.addrs
    ensures RunAll(w, [Addr(AddrAdd(dev, text))]).err.None?
  {
    RunOne(w, Addr(AddrAdd(dev, text)));
    hide World.Valid;
  }

  lemma ReplaceAddress(w: World, dev: string, text: PrefixText)
    requires w.Valid() && text.Parse().Some?
    ensures var o := RunAll(w, [Addr(AddrDel(dev, text)), Addr(AddrAdd(dev, text))]); var p := text.Parse().value;
            && Onward(w, o.world)
            && OnlyEntry(w.kernel, o.world.kernel, (dev, p))
            && (o.err.None? ==> (dev, p) in o.world.kernel.net.addrs)
            && (o.err.None? && NoDad(w.kernel.net, dev) ==> o.world.kernel.net.addrs[(dev, p)])
            && o.world.owned <= w.owned + {LanAddress(dev, p)}
  {
    var d := Addr(AddrDel(dev, text));
    var p := text.Parse().value;
    RunTwo(w, d, Addr(AddrAdd(dev, text)));
    ExecOnward(w, d);
    DeleteAddress(w, dev, text);
    var w1 := Run(w, d).world;
    hide Exec, World.Valid, World.Calm, SameSurroundings, RunAll, Onward;
    if Run(w, d).err.None? {
      AddAddress(w1, dev, text);
      assert w1.kernel.net.dadOff == w.kernel.net.dadOff;
      var w2 := RunAll(w1, [Addr(AddrAdd(dev, text))]).world;
      OnwardTrans(w, w1, w2);
      OnlyEntryTrans(w.kernel, w1.kernel, w2.kernel, (dev, p));
    }
    hide OnlyEntry;
  }

  lemma OnlyEntryTrans(a: Kernel, b: Kernel, c: Kernel, key: Key)
    requires OnlyEntry(a, b, key) && OnlyEntry(b, c, key)
    ensures OnlyEntry(a, c, key)
  {
    forall other: Key | other != key
      ensures SameEntry(a.net.addrs, c.net.addrs, other)
    {
      assert SameEntry(a.net.addrs, b.net.addrs, other) && SameEntry(b.net.addrs, c.net.addrs, other);
    }
  }

  lemma DeleteAddress(w: World, dev: string, text: PrefixText)
    requires text.Parse().Some?
    ensures var o := Run(w, Addr(AddrDel(dev, text))); var p := text.Parse().value;
            && OnlyEntry(w.kernel, o.world.kernel, (dev, p))
            && o.world.owned <= w.owned
            && (o.err.None? ==> (dev, p) !in o.world.kernel.net.addrs)
            && (o.err.Some? ==> o.world.kernel == w.kernel)
  {
  }

  lemma ReplaceSucceeds(w: World, dev: string, text: PrefixText)
    requires w.Valid() && w.Calm() && text.Parse().Some?
    requires text.Parse().value.addr.is6 && w.kernel.net.HasDevice(dev) && dev !in w.kernel.net.ipv6Off
    requires (dev, text.Parse().value) in w.kernel.net.addrs
    ensures RunAll(w, [Addr(AddrDel(dev, text)), Addr(AddrAdd(dev, text))]).err.None?
  {
    var d := Addr(AddrDel(dev, text));
    RunTwo(w, d, Addr(AddrAdd(dev, text)));
    ExecOnward(w, d);
    DeleteAddress(w, dev, text);
    assert Run(w, d).err.None?;
    hide Exec;
    AddSucceeds(Run(w, d).world, dev, text);
  }

  // ---------------------------------------------------------------- one managed address

  /** Everything EnsureAddress promises. A healthy address is never touched; nothing else of the
      kernel ever is; success means the address is there, usable wherever detection is off. */
  ghost predicate Ensured(w: World, dev: string, text: PrefixText, o: Outcome) {
    && Onward(w, o.world)
    && (text.Parse().None? ==> o.err.Some? && o.world.kernel == w.kernel && o.world.owned <= w.owned)
    && (text.Parse().Some? ==>
         var key := (dev, text.Parse().value);
         && OnlyEntry(w.kernel, o.world.kernel, key)
         && o.world.owned <= w.owned + {LanAddress(dev, text.Parse().value)}
         && (IsHealthy(w.kernel.net, dev, text) ==> o.world.kernel == w.kernel)
         && (o.err.None? ==> key in o.world.kernel.net.addrs)
         && (o.err.None? && NoDad(w.kernel.net, dev) ==> IsHealthy(o.world.kernel.net, dev, text)))
  }

  lemma ReadLeavesKernel(w: World, q: Query)
    ensures Exec(w, Read(q)).world.kernel == w.kernel
    ensures Exec(w, Read(q)).world.owned <= w.owned
    ensures w.Valid() ==> Exec(w, Read(q)).world.owned == w.owned
  {
  }

  lemma {:induction false} EnsureAddressEnsures(w: World, dev: string, text: PrefixText)
    requires w.Valid()
    ensures Ensured(w, dev, text, EnsureAddress(w, dev, text))
  {
    if text.Parse().None? {
      hide World.Valid, World.Calm;
    } else {
      var p := text.Parse().value;
      var d := Exec(w, Read(ShowAddr6(dev)));
      ExecOnward(w, Read(ShowAddr6(dev)));
      ReadLeavesKernel(w, ShowAddr6(dev));
      hide Exec, World.Valid, World.Calm, SameSurroundings, RunAll, Onward;
      if d.ok && StateOf(d.world.kernel.net, dev, p) != Healthy {
        EnsureChanges(w, d.world, dev, text);
      }
      hide OnlyEntry;
      OnlyEntryRefl(w.kernel, (dev, p));
    }
  }

  lemma OnlyEntryRefl(k: Kernel, key: Key)
    ensures OnlyEntry(k, k, key)
  {
  }

  lemma {:induction false} EnsureChanges(w: World, w1: World, dev: string, text: PrefixText)
    requires Onward(w, w1) && w1.kernel == w.kernel && w1.owned <= w.owned && text.Parse().Some?
    requires !IsHealthy(w.kernel.net, dev, text)
    ensures Ensured(w, dev, text, RunAll(w1, [Addr(AddrAdd(dev, text))]))
    ensures Ensured(w, dev, text, RunAll(w1, [Addr(AddrDel(dev, text)), Addr(AddrAdd(dev, text))]))
  {
    AddAddress(w1, dev, text);
    ReplaceAddress(w1, dev, text);
    hide RunAll, World.Valid, World.Calm, SameSurroundings, OnlyEntry;
    OnwardTrans(w, w1, RunAll(w1, [Addr(AddrAdd(dev, text))]).world);
    OnwardTrans(w, w1, RunAll(w1, [Addr(AddrDel(dev, text)), Addr(AddrAdd(dev, text))]).world);
    hide Onward;
  }

  /** Without spurious failures an IPv6 address can always be ensured on a device that is there and
      speaks IPv6; and these conditions are all needed. */
  lemma EnsureAddressSucceedsIff(w: World, dev: string, text: PrefixText)
    requires w.Valid() && w.Calm()
    ensures EnsureAddress(w, dev, text).err.None? <==>
            (&& text.Parse().Some?
             && w.kernel.net.HasDevice(dev)
             && (IsHealthy(w.kernel.net, dev, text) || (text.Parse().value.addr.is6 && dev !in w.kernel.net.ipv6Off)))
  {
    if text.Parse().Some? {
      var p := text.Parse().value;
      var d := Exec(w, Read(ShowAddr6(dev)));
      ExecOnward(w, Read(ShowAddr6(dev)));
      ReadLeavesKernel(w, ShowAddr6(dev));
      assert d.ok <==> w.kernel.net.HasDevice(dev);
      if d.ok {
        if (dev, p) in w.kernel.net.addrs {
          hide Exec, RunAll;
          ReplaceSucceeds(d.world, dev, text);
        } else {
          if p.addr.is6 && dev !in w.kernel.net.ipv6Off {
            hide Exec, RunAll;
            AddSucceeds(d.world, dev, text);
          } else {
            RunOne(d.world, Addr(AddrAdd(dev, text)));
          }
        }
      }
    }
  }

  // ---------------------------------------------------------------- making a device ready

  /** Only this device's addresses and its two switches may change. */
  ghost predicate OnlyDevice(k: Kernel, k': Kernel, dev: string) {
    && k'.fw == k.fw
    && k'.net == k.net.(addrs := k'.net.addrs, dadOff := k'.net.dadOff, ipv6Off := k'.net.ipv6Off)
    && k.net.dadOff <= k'.net.dadOff <= k.net.dadOff + {dev}
    && (forall other: Key :: other.0 != dev ==> SameEntry(k.net.addrs, k'.net.addrs, other))
    && (forall d :: d != dev ==> (d in k'.net.ipv6Off <==> d in k.net.ipv6Off))
  }

  ghost predicate Readied(w: World, dev: string, o: Outcome) {
    && Onward(w, o.world)
    && OnlyDevice(w.kernel, o.world.kernel, dev)
    && o.world.owned <= w.owned
    && w.kernel.net.ipv6Off <= o.world.kernel.net.ipv6Off
    && (o.err.None? ==> dev in o.world.kernel.net.dadOff && o.world.kernel.net.ipv6Off == w.kernel.net.ipv6Off)
    && (!w.kernel.net.BrokenLinkLocal(dev) ==> o.world.kernel.net.addrs == w.kernel.net.addrs)
  }

  lemma DadOff(w: World, dev: string)
    requires w.Valid()
    ensures var o := Run(w, Addr(AcceptDadOff(dev)));
            && Onward(w, o.world)
            && o.world.owned <= w.owned
            && o.world.kernel == (if o.err.None? then w.kernel.(net := w.kernel.net.(dadOff := w.kernel.net.dadOff + {dev})) else w.kernel)
  {
    ExecOnward(w, Addr(AcceptDadOff(dev)));
    hide World.Valid, World.Calm, SameSurroundings, Onward;
  }

  lemma ToggleIPv6(w: World, dev: string)
    requires w.Valid()
    ensures var o := RunAll(w, [Addr(DisableIPv6(dev)), Addr(EnableIPv6(dev))]);
            && Onward(w, o.world)
            && OnlyDevice(w.kernel, o.world.kernel, dev)
            && o.world.owned <= w.owned
            && o.world.kernel.net.dadOff == w.kernel.net.dadOff
            && (o.err.None? ==> o.world.kernel.net.ipv6Off == w.kernel.net.ipv6Off - {dev})
  {
    var off, on := Addr(DisableIPv6(dev)), Addr(EnableIPv6(dev));
    RunTwo(w, off, on);
    ExecOnward(w, off);
    var w1 := Run(w, off).world;
    Disable(w, dev);
    hide World.Valid, World.Calm, SameSurroundings, Exec;
    if Run(w, off).err.None? {
      RunOne(w1, on);
      ExecOnward(w1, on);
      Enable(w1, dev);
      OnwardTrans(w, w1, Run(w1, on).world);
    }
    hide Onward, RunAll;
  }

  lemma Disable(w: World, dev: string)
    ensures var o := Run(w, Addr(DisableIPv6(dev)));
            && OnlyDevice(w.kernel, o.world.kernel, dev)
            && o.world.owned <= w.owned
            && o.world.kernel.net.dadOff == w.kernel.net.dadOff
            && (o.err.None? ==> o.world.kernel.net.ipv6Off == w.kernel.net.ipv6Off + {dev})
            && (o.err.Some? ==> o.world.kernel == w.kernel)
  {
  }

  lemma Enable(w: World, dev: string)
    ensures var o := Run(w, Addr(EnableIPv6(dev)));
            && OnlyDevice(w.kernel, o.world.kernel, dev)
            && o.world.owned <= w.owned
            && o.world.kernel.net.dadOff == w.kernel.net.dadOff
            && (o.err.None? ==> o.world.kernel.net.ipv6Off == w.kernel.net.ipv6Off - {dev})
            && (o.err.Some? ==> o.world.kernel == w.kernel)
  {
  }

  lemma {:induction false} ReadyInterfaceReadies(w: World, dev: string)
    requires w.Valid()
    ensures Readied(w, dev, ReadyInterface(w, dev))
  {
    var a := Run(w, Addr(AcceptDadOff(dev)));
    DadOff(w, dev);
    hide Exec, World.Valid, World.Calm, SameSurroundings, Run;
    if a.err.None? {
      var d := Exec(a.world, Read(ShowAddr6(dev)));
      ExecOnward(a.world, Read(ShowAddr6(dev)));
      ReadLeavesKernel(a.world, ShowAddr6(dev));
      OnwardTrans(w, a.world, d.world);
      hide Onward, RunAll;
      BrokenSame(w.kernel.net, d.world.kernel.net, dev);
      ReadyToggle(w, d.world, dev);
    }
    hide OnlyDevice;
    OnlyDeviceRefl(w.kernel, dev);
  }

  lemma OnlyDeviceRefl(k: Kernel, dev: string)
    ensures OnlyDevice(k, k, dev)
    ensures OnlyDevice(k, k.(net := k.net.(dadOff := k.net.dadOff + {dev})), dev)
  {
  }

  lemma BrokenSame(n: Network, n': Network, dev: string)
    requires n.addrs == n'.addrs
    ensures n.BrokenLinkLocal(dev) <==> n'.BrokenLinkLocal(dev)
  {
  }

  /** A device with IPv6 off has no addresses, so none of them is broken. */
  lemma BrokenMeansOn(w: World, dev: string)
    requires w.Valid()
    ensures w.kernel.net.BrokenLinkLocal(dev) ==> dev !in w.kernel.net.ipv6Off
  {
  }

  lemma {:induction false} ReadyToggle(w: World, w1: World, dev: string)
    requires w.Valid() && Onward(w, w1) && w1.owned <= w.owned
    requires w1.kernel == w.kernel.(net := w.kernel.net.(dadOff := w.kernel.net.dadOff + {dev}))
    ensures w.kernel.net.BrokenLinkLocal(dev) ==> Readied(w, dev, RunAll(w1, [Addr(DisableIPv6(dev)), Addr(EnableIPv6(dev))]))
  {
    ToggleIPv6(w1, dev);
    hide RunAll, World.Valid, World.Calm, SameSurroundings;
    OnwardTrans(w, w1, RunAll(w1, [Addr(DisableIPv6(dev)), Addr(EnableIPv6(dev))]).world);
    BrokenMeansOn(w, dev);
    hide Onward;
  }

  /** Without spurious failures a device that is there can be made ready. */
  lemma {:induction false} ReadyInterfaceSucceedsIff(w: World, dev: string)
    requires w.Valid() && w.Calm()
    ensures ReadyInterface(w, dev).err.None? <==> w.kernel.net.HasDevice(dev)
  {
    var a := Run(w, Addr(AcceptDadOff(dev)));
    assert a.err.None? <==> w.kernel.net.HasDevice(dev);
    DadOff(w, dev);
    var d := Exec(a.world, Read(ShowAddr6(dev)));
    ExecOnward(a.world, Read(ShowAddr6(dev)));
    ReadLeavesKernel(a.world, ShowAddr6(dev));
    if a.err.None? {
      assert d.ok;
      ToggleSucceeds(d.world, dev);
    }
    hide Exec, RunAll, Onward;
  }

  lemma {:induction false} ToggleSucceeds(w: World, dev: string)
    requires w.Valid() && w.Calm() && w.kernel.net.HasDevice(dev)
    ensures RunAll(w, [Addr(DisableIPv6(dev)), Addr(EnableIPv6(dev))]).err.None?
  {
    var off, on := Addr(DisableIPv6(dev)), Addr(EnableIPv6(dev));
    RunTwo(w, off, on);
    RunOne(Run(w, off).world, on);
    hide World.Valid, RunAll;
  }
}
