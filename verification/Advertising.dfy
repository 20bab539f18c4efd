/** Router advertisements: what the daemon tells the LAN. */
module Advertising {
  import opened Options
  import opened Addresses
  import opened Config

  datatype AdvertisedNetwork = AdvertisedNetwork(iface: string, prefix: Prefix)

  /** The running advertiser. A resolver is None where no address follows the network address. */
  datatype Advertiser = Advertiser(networks: seq<AdvertisedNetwork>, dns: seq<Option<Address>>, mtu: int)

  datatype AdvertiserFailure =
    | RAPrefixUnparsable(text: PrefixText)
    | RADNSUnparsable(resolver: AddressText)
    | AutoDNSUnparsable(text: PrefixText)
    | StartFailed

  datatype Attempt<T> = Good(value: T) | Bad(failure: AdvertiserFailure)

  // ---------------------------------------------------------------- resolvers

  /** Keeps the first occurrence of every element, in order. */
  function FirstOccurrences<T(==,!new)>(s: seq<T>): (r: seq<T>)
    ensures forall x :: x in r <==> x in s
  {
    if s == [] then []
    else
      var front := s[..|s| - 1];
      var last := s[|s| - 1];
      assert s == front + [last];
      if last in front then FirstOccurrences(front) else FirstOccurrences(front) + [last]
  }

  function IndexOf<T(==)>(s: seq<T>, x: T): (i: nat)
    requires x in s
    ensures i < |s| && s[i] == x
    ensures forall j :: 0 <= j < i ==> s[j] != x
  {
    if s[0] == x then 0 else 1 + IndexOf(s[1..], x)
  }

  lemma IndexUnique<T>(s: seq<T>, x: T, i: nat)
    requires i < |s| && s[i] == x && forall j :: 0 <= j < i ==> s[j] != x
    ensures IndexOf(s, x) == i
  {
  }

  lemma FirstOccurrencesStep<T(!new)>(s: seq<T>, x: T)
    ensures FirstOccurrences(s + [x]) == if x in s then FirstOccurrences(s) else FirstOccurrences(s) + [x]
  {
    assert (s + [x])[..|s|] == s;
  }

  lemma {:induction false} IndexStep<T>(s: seq<T>, x: T, y: T)
    requires y in s
    ensures y in s + [x] && IndexOf(s + [x], y) == IndexOf(s, y) < |s|
  {
    var t := s + [x];
    var i := IndexOf(s, y);
    assert t[i] == s[i];
    assert forall j :: 0 <= j < i ==> t[j] == s[j];
    IndexUnique(t, y, i);
  }

  lemma IndexOfNew<T>(s: seq<T>, x: T)
    requires x !in s
    ensures IndexOf(s + [x], x) == |s|
  {
    var t := s + [x];
    assert forall j :: 0 <= j < |s| ==> t[j] == s[j];
    IndexUnique(t, x, |s|);
  }

  /** Later in the list means first seen later. */
  ghost predicate InOrder<T>(r: seq<T>, s: seq<T>) {
    && (forall i :: 0 <= i < |r| ==> r[i] in s)
    && forall i, j :: 0 <= i < j < |r| ==> r[i] != r[j] && IndexOf(s, r[i]) < IndexOf(s, r[j])
  }

  lemma InOrderStep<T>(r: seq<T>, s: seq<T>, x: T)
    requires InOrder(r, s)
    ensures InOrder(r, s + [x])
    ensures x !in s ==> InOrder(r + [x], s + [x])
  {
    hide IndexOf;
    forall i | 0 <= i < |r|
      ensures r[i] in s + [x] && IndexOf(s + [x], r[i]) == IndexOf(s, r[i]) < |s|
    {
      IndexStep(s, x, r[i]);
    }
    if x !in s {
      IndexOfNew(s, x);
    }
  }

  /** Elements stand in the order in which they first occurred; in particular none stands twice. */
  lemma {:induction false} FirstOccurrencesInOrder<T(!new)>(s: seq<T>)
    ensures InOrder(FirstOccurrences(s), s)
  {
    if s != [] {
      var front, last := s[..|s| - 1], s[|s| - 1];
      assert s == front + [last];
      FirstOccurrencesInOrder(front);
      FirstOccurrencesStep(front, last);
      InOrderStep(FirstOccurrences(front), front, last);
    }
  }

  lemma NoOccurrences<T(!new)>()
    ensures FirstOccurrences<T>([]) == []
  {
  }

  /** The gateways of the networks that parse, in order. */
  function RouterAddresses(ns: seq<NetworkConfig>): (s: seq<Option<Address>>)
    requires forall i :: 0 <= i < |ns| ==> ns[i].prefix.Parse().Some?
    ensures |s| == |ns|
    ensures forall i :: 0 <= i < |ns| ==> s[i] == GatewayAddress(ns[i].prefix.Parse().value)
  {
    seq(|ns|, i requires 0 <= i < |ns| => GatewayAddress(ns[i].prefix.Parse().value))
  }

  lemma RouterAddressesStep(ns: seq<NetworkConfig>, i: nat)
    requires i < |ns| && forall j :: 0 <= j <= i ==> ns[j].prefix.Parse().Some?
    ensures RouterAddresses(ns[..i + 1]) == RouterAddresses(ns[..i]) + [GatewayAddress(ns[i].prefix.Parse().value)]
  {
    hide GatewayAddress;
  }

  /** First network whose prefix does not parse, or |ns|. */
  function FirstUnparsable(ns: seq<NetworkConfig>): (i: nat)
    ensures i <= |ns|
    ensures i < |ns| ==> ns[i].prefix.Parse().None?
    ensures forall j :: 0 <= j < i ==> ns[j].prefix.Parse().Some?
  {
    if ns == [] || ns[0].prefix.Parse().None? then 0 else 1 + FirstUnparsable(ns[1..])
  }

  /** deriveRouterDNSServers: every router address once, in order of first occurrence. */
  function RouterDNS(ns: seq<NetworkConfig>): Attempt<seq<Option<Address>>> {
    var i := FirstUnparsable(ns);
    if i < |ns| then Bad(AutoDNSUnparsable(ns[i].prefix)) else Good(FirstOccurrences(RouterAddresses(ns)))
  }

  method DeriveRouterDNSServers(networks: seq<NetworkConfig>) returns (servers: Attempt<seq<Option<Address>>>)
    ensures servers == RouterDNS(networks)
  {
    hide FirstOccurrences, GatewayAddress;
    var dns: seq<Option<Address>> := [];
    NoOccurrences<Option<Address>>();
    var seen: set<Option<Address>> := {};
    for i := 0 to |networks|
      invariant forall j :: 0 <= j < i ==> networks[j].prefix.Parse().Some?
      invariant dns == FirstOccurrences(RouterAddresses(networks[..i]))
      invariant forall x :: x in seen <==> x in RouterAddresses(networks[..i])
    {
      var prefix := networks[i].prefix.Parse();
      if prefix.None? {
        assert FirstUnparsable(networks) == i;
        return Bad(AutoDNSUnparsable(networks[i].prefix));
      }
      var router := GatewayAddress(prefix.value);
      RouterAddressesStep(networks, i);
      FirstOccurrencesStep(RouterAddresses(networks[..i]), router);
      if router !in seen {
        seen := seen + {router};
        dns := dns + [router];
      }
    }
    assert networks[..|networks|] == networks;
    return Good(dns);
  }

  function ParseResolvers(dns: seq<AddressText>): Attempt<seq<Option<Address>>> {
    if dns == [] then Good([])
    else
      match dns[0].Parse()
      case None => Bad(RADNSUnparsable(dns[0]))
      case Some(a) =>
        match ParseResolvers(dns[1..])
        case Bad(f) => Bad(f)
        case Good(rest) => Good([Some(a)] + rest)
  }

  /** resolveRADNSServers: the configured resolvers, or else the routers themselves. */
  function Resolvers(c: Config): Attempt<seq<Option<Address>>> {
    if c.lan.dns != [] then ParseResolvers(c.lan.dns) else RouterDNS(c.lan.networks)
  }

  function AdvertisedNetworks(ns: seq<NetworkConfig>): Attempt<seq<AdvertisedNetwork>> {
    if ns == [] then Good([])
    else
      match ns[0].prefix.Parse()
      case None => Bad(RAPrefixUnparsable(ns[0].prefix))
      case Some(p) =>
        match AdvertisedNetworks(ns[1..])
        case Bad(f) => Bad(f)
        case Good(rest) => Good([AdvertisedNetwork(ns[0].iface, p)] + rest)
  }

  /** What would be advertised for a config. */
  function Plan(c: Config): Attempt<Advertiser> {
    match AdvertisedNetworks(c.lan.networks)
    case Bad(f) => Bad(f)
    case Good(networks) =>
      match Resolvers(c)
      case Bad(f) => Bad(f)
      case Good(dns) => Good(Advertiser(networks, dns, c.tunnel.mtu))
  }

  lemma {:induction false} AdvertisedNetworksGood(ns: seq<NetworkConfig>)
    ensures AdvertisedNetworks(ns).Good? <==> forall i :: 0 <= i < |ns| ==> ns[i].prefix.Parse().Some?
  {
    if ns != [] {
      AdvertisedNetworksGood(ns[1..]);
      assert (forall i :: 0 <= i < |ns| ==> ns[i].prefix.Parse().Some?) <==>
             ns[0].prefix.Parse().Some? && forall i :: 0 <= i < |ns[1..]| ==> ns[1..][i].prefix.Parse().Some? by {
        if ns[0].prefix.Parse().Some? && forall i :: 0 <= i < |ns[1..]| ==> ns[1..][i].prefix.Parse().Some? {
          assert forall i :: 0 < i < |ns| ==> ns[i] == ns[1..][i - 1];
        }
      }
    }
  }

  lemma {:induction false} ParseResolversGood(dns: seq<AddressText>)
    ensures ParseResolvers(dns).Good? <==> forall i :: 0 <= i < |dns| ==> dns[i].Parse().Some?
  {
    if dns != [] {
      ParseResolversGood(dns[1..]);
      assert (forall i :: 0 <= i < |dns| ==> dns[i].Parse().Some?) <==>
             dns[0].Parse().Some? && forall i :: 0 <= i < |dns[1..]| ==> dns[1..][i].Parse().Some? by {
        if dns[0].Parse().Some? && forall i :: 0 <= i < |dns[1..]| ==> dns[1..][i].Parse().Some? {
          assert forall i :: 0 < i < |dns| ==> dns[i] == dns[1..][i - 1];
        }
      }
    }
  }

  /** An advertiser can be planned exactly when every prefix and every configured resolver parses as it
      stands; it then carries the config's MTU. */
  lemma PlanGoodIff(c: Config)
    ensures Plan(c).Good? <==>
            (&& (forall i :: 0 <= i < |c.lan.networks| ==> c.lan.networks[i].prefix.Parse().Some?)
             && (forall i :: 0 <= i < |c.lan.dns| ==> c.lan.dns[i].Parse().Some?))
    ensures Plan(c).Good? ==> Plan(c).value.mtu == c.tunnel.mtu
  {
    AdvertisedNetworksGood(c.lan.networks);
    ParseResolversGood(c.lan.dns);
  }

  // ---------------------------------------------------------------- the message

  datatype NetInterface = NetInterface(hardwareAddr: seq<bv8>, mtu: int)

  datatype RAOption =
    | SourceLinkLayer(addr: seq<bv8>)
    | MTU(value: nat)
    | PrefixInformation(bits: nat, onLink: bool, autonomous: bool, validSec: nat, preferredSec: nat, prefix: Address)
    | RecursiveDNS(lifetimeSec: nat, servers: seq<Option<Address>>)

  datatype Preference = Low | Medium | High

  /** Times in seconds. */
  datatype RouterAdvertisement = RouterAdvertisement(
    hopLimit: nat, managed: bool, otherConfig: bool, preference: Preference, lifetimeSec: nat, options: seq<RAOption>)

  const HOP_LIMIT: nat := 64
  const HALF_AN_HOUR: nat := 1800
  const TWO_HOURS: nat := 7200

  function OfferOf(p: Prefix): RAOption {
    PrefixInformation(p.bits, true, true, TWO_HOURS, HALF_AN_HOUR, p.addr)
  }

  const UINT32: int := 0x1_0000_0000

  /** The MTU a host on the LAN learns, if any. */
  function LearnedMTU(options: seq<RAOption>): Option<nat> {
    if options == [] then None
    else if options[0].MTU? then Some(options[0].value)
    else LearnedMTU(options[1..])
  }

  function LearnedServers(options: seq<RAOption>): seq<Option<Address>> {
    if options == [] then []
    else (if options[0].RecursiveDNS? then options[0].servers else []) + LearnedServers(options[1..])
  }

  function LinkLayerOption(iface: Option<NetInterface>): seq<RAOption> {
    if iface.Some? && |iface.value.hardwareAddr| > 0 then [SourceLinkLayer(iface.value.hardwareAddr)] else []
  }

  /** The tunnel's MTU goes first; only without one the LAN interface's counts. The value is truncated
      to 32 bits. */
  function MTUOption(iface: Option<NetInterface>, tunnelMTU: int): seq<RAOption> {
    if tunnelMTU > 0 then [MTU(tunnelMTU % UINT32)]
    else if iface.Some? && iface.value.mtu > 0 then [MTU(iface.value.mtu % UINT32)] else []
  }

  function ServersOption(dns: seq<Option<Address>>): seq<RAOption> {
    if dns != [] then [RecursiveDNS(HALF_AN_HOUR, dns)] else []
  }

  function RAOptions(iface: Option<NetInterface>, p: Prefix, dns: seq<Option<Address>>, tunnelMTU: int): seq<RAOption> {
    LinkLayerOption(iface) + MTUOption(iface, tunnelMTU) + [OfferOf(p)] + ServersOption(dns)
  }

  method BuildRA(iface: Option<NetInterface>, prefix: Prefix, dnsServers: seq<Option<Address>>, tunnelMTU: int)
    returns (ra: RouterAdvertisement)
    ensures ra == RouterAdvertisement(HOP_LIMIT, false, false, Medium, HALF_AN_HOUR, RAOptions(iface, prefix, dnsServers, tunnelMTU))
  {
    var options: seq<RAOption> := [];
    if iface.Some? && |iface.value.hardwareAddr| > 0 {
      options := options + [SourceLinkLayer(iface.value.hardwareAddr)];
    }
    if tunnelMTU > 0 {
      options := options + [MTU(tunnelMTU % UINT32)];
    } else if iface.Some? && iface.value.mtu > 0 {
      options := options + [MTU(iface.value.mtu % UINT32)];
    }
    options := options + [PrefixInformation(prefix.bits, true, true, TWO_HOURS, HALF_AN_HOUR, prefix.addr)];
    ra := RouterAdvertisement(HOP_LIMIT, false, false, Medium, HALF_AN_HOUR, options);
    if |dnsServers| > 0 {
      ra := ra.(options := ra.options + [RecursiveDNS(HALF_AN_HOUR, dnsServers)]);
    }
  }

  /** The prefixes from which a host makes addresses of its own (section 5.5.3 of RFC 4862): autonomous, not
      link-local, and with a preferred lifetime not above the valid one. */
  function AutonomousPrefixes(options: seq<RAOption>): seq<(nat, Address)> {
    if options == [] then []
    else
      var o := options[0];
      (if o.PrefixInformation? && o.autonomous && !IsLinkLocal(o.prefix) && o.preferredSec <= o.validSec then [(o.bits, o.prefix)] else [])
      + AutonomousPrefixes(options[1..])
  }

  lemma LearnedStep(o: RAOption, rest: seq<RAOption>)
    ensures LearnedMTU([o] + rest) == if o.MTU? then Some(o.value) else LearnedMTU(rest)
    ensures LearnedServers([o] + rest) == (if o.RecursiveDNS? then o.servers else []) + LearnedServers(rest)
    ensures !o.PrefixInformation? ==> AutonomousPrefixes([o] + rest) == AutonomousPrefixes(rest)
  {
    assert ([o] + rest)[1..] == rest;
  }

  lemma OfferStep(p: Prefix, rest: seq<RAOption>)
    ensures AutonomousPrefixes([OfferOf(p)] + rest) == (if IsLinkLocal(p.addr) then [] else [(p.bits, p.addr)]) + AutonomousPrefixes(rest)
  {
    hide IsLinkLocal;
    assert ([OfferOf(p)] + rest)[1..] == rest;
  }

  /** A host learns the tunnel's MTU as it is, exactly the given resolvers, and makes its own addresses from
      exactly the given prefix. */
  lemma HostLearns(iface: Option<NetInterface>, p: Prefix, dns: seq<Option<Address>>, tunnelMTU: int)
    requires 0 < tunnelMTU < UINT32
    ensures LearnedMTU(RAOptions(iface, p, dns, tunnelMTU)) == Some(tunnelMTU)
    ensures LearnedServers(RAOptions(iface, p, dns, tunnelMTU)) == dns
    ensures AutonomousPrefixes(RAOptions(iface, p, dns, tunnelMTU)) == if IsLinkLocal(p.addr) then [] else [(p.bits, p.addr)]
  {
    hide IsLinkLocal, RAOptions, LearnedMTU, LearnedServers, AutonomousPrefixes, OfferOf;
    var last := ServersOption(dns);
    OptionsInOrder(iface, p, dns, tunnelMTU);
    ServersLearned(dns);
    OfferStep(p, last);
    OfferIsPrefix(p);
    LearnedStep(OfferOf(p), last);
    LearnedStep(MTU(tunnelMTU), [OfferOf(p)] + last);
    if iface.Some? && |iface.value.hardwareAddr| > 0 {
      LearnedStep(SourceLinkLayer(iface.value.hardwareAddr), [MTU(tunnelMTU)] + ([OfferOf(p)] + last));
    } else {
      assert [] + ([MTU(tunnelMTU)] + ([OfferOf(p)] + last)) == [MTU(tunnelMTU)] + ([OfferOf(p)] + last);
    }
    assert (if IsLinkLocal(p.addr) then [] else [(p.bits, p.addr)]) + [] == if IsLinkLocal(p.addr) then [] else [(p.bits, p.addr)];
  }

  lemma OfferIsPrefix(p: Prefix)
    ensures OfferOf(p).PrefixInformation?
  {
  }

  lemma OptionsInOrder(iface: Option<NetInterface>, p: Prefix, dns: seq<Option<Address>>, tunnelMTU: int)
    requires 0 < tunnelMTU < UINT32
    ensures RAOptions(iface, p, dns, tunnelMTU)
         == LinkLayerOption(iface) + ([MTU(tunnelMTU)] + ([OfferOf(p)] + ServersOption(dns)))
  {
    hide OfferOf;
  }

  lemma ServersLearned(dns: seq<Option<Address>>)
    ensures LearnedServers(ServersOption(dns)) == dns && AutonomousPrefixes(ServersOption(dns)) == []
  {
  }
}
