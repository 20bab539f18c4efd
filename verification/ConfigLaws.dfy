/** What validation means, and how the document and its effective config determine each other. */
module ConfigLaws {
  import opened Options
  import opened Text
  import opened Addresses
  import opened Config

  // ---------------------------------------------------------------- validation of a config

  /** A config the daemon can work with, said without listing failures. */
  predicate GoodProfile(given: ProfileConfig, tunnelEnabled: bool) {
    var c := ProfileDefaults(given);
    && c.tunnel.broker in SUPPORTED_BROKERS
    && c.tunnel.ttl > 0
    && c.tunnel.mtu >= 0
    && (c.health.enabled ==> c.health.intervalSec > 0 && IsIPv6Address(c.health.target))
    && (c.lan.enabled ==>
          && c.lan.networks != []
          && (forall i :: 0 <= i < |c.lan.networks| ==> GoodNetwork(c.lan.networks[i]))
          && (forall i :: 0 <= i < |c.lan.dns| ==> IsIPv6Address(c.lan.dns[i])))
    && (tunnelEnabled ==>
          && IsIPv4(c.tunnel.remoteEndpoint)
          && IsIPv6Prefix(c.tunnel.localIPv6))
  }

  predicate GoodNetwork(n: NetworkConfig) {
    !IsBlank(n.iface) && n.prefix.Parse().Some? && n.prefix.Parse().value.addr.is6
  }

  predicate GoodServer(s: ServerConfig) {
    s.port > 0 && !IsBlank(s.wanInterface)
  }

  lemma {:induction false} NetworksReasonsEmptyIff(ns: seq<NetworkConfig>, index: nat)
    ensures NetworksReasons(ns, index) == [] <==> forall i :: index <= i < |ns| ==> GoodNetwork(ns[i])
    decreases |ns| - index
  {
    if index < |ns| {
      assert NetworkReasons(ns[index], index) == [] <==> GoodNetwork(ns[index]);
      hide NetworkReasons, GoodNetwork;
      NetworksReasonsEmptyIff(ns, index + 1);
    }
  }

  lemma {:induction false} ResolversReasonsEmptyIff(dns: seq<AddressText>, index: nat)
    ensures ResolversReasons(dns, index) == [] <==> forall i :: index <= i < |dns| ==> IsIPv6Address(dns[i])
    decreases |dns| - index
  {
    if index < |dns| {
      ResolversReasonsEmptyIff(dns, index + 1);
    }
  }

  lemma DottedQuadIsNotBlank(s: string)
    requires IsIPv4(s)
    ensures !IsBlank(s)
  {
    var parts := Split(s, '.');
    JoinSplit(s, '.');
    assert IsOctet(parts[0]);
    assert s == parts[0] + ['.'] + Join(parts[1..], '.');
    assert s[0] == parts[0][0];
  }

  lemma LANReasonsEmptyIff(l: LANConfig)
    ensures LANReasons(l) == [] <==>
            (l.enabled ==>
              && l.networks != []
              && (forall i :: 0 <= i < |l.networks| ==> GoodNetwork(l.networks[i]))
              && (forall i :: 0 <= i < |l.dns| ==> IsIPv6Address(l.dns[i])))
  {
    NetworksReasonsEmptyIff(l.networks, 0);
    ResolversReasonsEmptyIff(l.dns, 0);
  }

  /** Validation reports nothing exactly on good profiles. */
  lemma ProfileReasonsEmptyIff(given: ProfileConfig, tunnelEnabled: bool)
    ensures ProfileReasons(given, tunnelEnabled) == [] <==> GoodProfile(given, tunnelEnabled)
  {
    var c := ProfileDefaults(given);
    LANReasonsEmptyIff(c.lan);
    if IsIPv4(c.tunnel.remoteEndpoint) {
      DottedQuadIsNotBlank(c.tunnel.remoteEndpoint);
    }
    hide NetworksReasons, ResolversReasons, LANReasons, IsIPv4, IsBlank, GoodNetwork;
    assert HealthReasons(c.health) == [] <==>
           (c.health.enabled ==> c.health.intervalSec > 0 && IsIPv6Address(c.health.target));
    assert EndpointReasons(c.tunnel) == [] <==> IsIPv4(c.tunnel.remoteEndpoint) && IsIPv6Prefix(c.tunnel.localIPv6);
  }

  lemma ValidConfigIff(c: Config)
    ensures ValidConfig(c) <==> GoodServer(c.server) && GoodProfile(ProfilePart(c), c.tunnel.enabled)
  {
    ProfileReasonsEmptyIff(ProfilePart(c), c.tunnel.enabled);
    hide ProfileReasons, GoodProfile;
  }

  // ---------------------------------------------------------------- no failure is reported twice

  ghost predicate Distinct<T>(s: seq<T>) {
    forall i, j :: 0 <= i < j < |s| ==> s[i] != s[j]
  }

  lemma DistinctAppend<T>(a: seq<T>, b: seq<T>)
    requires Distinct(a) && Distinct(b)
    requires forall x :: x in a ==> x !in b
    ensures Distinct(a + b)
  {
    forall i, j | 0 <= i < j < |a + b|
      ensures (a + b)[i] != (a + b)[j]
    {
      if i < |a| <= j {
        assert (a + b)[i] in a && (a + b)[j] in b;
      }
    }
  }

  predicate AboutNetwork(r: Reason, from: nat) {
    (r.InterfaceMissing? || r.PrefixMissing? || r.PrefixInvalid? || r.PrefixNotIPv6?) && r.index >= from
  }

  predicate AboutResolver(r: Reason, from: nat) {
    r.ResolverInvalid? && r.index >= from
  }

  lemma {:induction false} NetworksReasonsDistinct(ns: seq<NetworkConfig>, index: nat)
    ensures Distinct(NetworksReasons(ns, index))
    ensures forall r :: r in NetworksReasons(ns, index) ==> AboutNetwork(r, index)
    decreases |ns| - index
  {
    if index < |ns| {
      NetworksReasonsDistinct(ns, index + 1);
      DistinctAppend(NetworkReasons(ns[index], index), NetworksReasons(ns, index + 1));
    }
  }

  lemma {:induction false} ResolversReasonsDistinct(dns: seq<AddressText>, index: nat)
    ensures Distinct(ResolversReasons(dns, index))
    ensures forall r :: r in ResolversReasons(dns, index) ==> AboutResolver(r, index)
    decreases |dns| - index
  {
    if index < |dns| {
      ResolversReasonsDistinct(dns, index + 1);
      DistinctAppend(If(!IsIPv6Address(dns[index]), ResolverInvalid(index)), ResolversReasons(dns, index + 1));
    }
  }

  lemma LANReasonsDistinct(l: LANConfig)
    ensures Distinct(LANReasons(l))
    ensures forall r :: r in LANReasons(l) ==> r == NoNetworks || AboutNetwork(r, 0) || AboutResolver(r, 0)
  {
    NetworksReasonsDistinct(l.networks, 0);
    ResolversReasonsDistinct(l.dns, 0);
    var ns, rs := NetworksReasons(l.networks, 0), ResolversReasons(l.dns, 0);
    hide NetworksReasons, ResolversReasons;
    if l.enabled {
      DistinctAppend(If(l.networks == [], NoNetworks), ns);
      DistinctAppend(If(l.networks == [], NoNetworks) + ns, rs);
    }
  }

  /** Which part of the config a failure is about. */
  function Part(r: Reason): nat {
    match r
    case PortNotPositive | WANInterfaceMissing => 0
    case BrokerUnsupported | TTLNotPositive | MTUNegative => 1
    case IntervalNotPositive | TargetMissing | TargetInvalid => 2
    case EndpointMissing | EndpointInvalid | LocalIPv6Missing | LocalIPv6Invalid => 4
    case _ => 3
  }

  ghost predicate PartsWithin(reasons: seq<Reason>, low: nat, high: nat) {
    forall r :: r in reasons ==> low <= Part(r) <= high
  }

  lemma DistinctParts(a: seq<Reason>, b: seq<Reason>, low: nat, mid: nat, high: nat)
    requires Distinct(a) && Distinct(b)
    requires low <= mid < high && PartsWithin(a, low, mid) && PartsWithin(b, mid + 1, high)
    ensures Distinct(a + b) && PartsWithin(a + b, low, high)
  {
    DistinctAppend(a, b);
  }

  lemma ServerReasonsDistinct(s: ServerConfig)
    ensures Distinct(ServerReasons(s)) && PartsWithin(ServerReasons(s), 0, 0)
  {
  }

  lemma BasicTunnelReasonsDistinct(t: TunnelConfig)
    ensures Distinct(BasicTunnelReasons(t)) && PartsWithin(BasicTunnelReasons(t), 1, 1)
  {
    hide IsBlank;
    var a, b, c := If(t.broker !in SUPPORTED_BROKERS, BrokerUnsupported), If(t.ttl <= 0, TTLNotPositive), If(t.mtu < 0, MTUNegative);
    DistinctAppend(a, b);
    DistinctAppend(a + b, c);
  }

  lemma HealthReasonsDistinct(h: HealthConfig)
    ensures Distinct(HealthReasons(h)) && PartsWithin(HealthReasons(h), 2, 2)
  {
  }

  lemma EndpointReasonsDistinct(t: TunnelConfig)
    ensures Distinct(EndpointReasons(t)) && PartsWithin(EndpointReasons(t), 4, 4)
  {
    hide IsBlank, IsIPv4;
  }

  /** A config is never blamed twice for the same thing. */
  lemma ConfigReasonsDistinct(c: Config)
    ensures Distinct(ConfigReasons(c))
  {
    var p := ProfileDefaults(ProfilePart(c));
    LANReasonsDistinct(p.lan);
    ServerReasonsDistinct(c.server);
    BasicTunnelReasonsDistinct(p.tunnel);
    HealthReasonsDistinct(p.health);
    EndpointReasonsDistinct(p.tunnel);
    var s, b, h, l := ServerReasons(c.server), BasicTunnelReasons(p.tunnel), HealthReasons(p.health), LANReasons(p.lan);
    var e := if c.tunnel.enabled then EndpointReasons(p.tunnel) else [];
    hide ServerReasons, BasicTunnelReasons, HealthReasons, LANReasons, EndpointReasons, ProfileDefaults;
    assert PartsWithin(l, 3, 3);
    assert Distinct(e) && PartsWithin(e, 4, 4);
    hide Distinct, PartsWithin;
    DistinctParts(b, h, 1, 1, 2);
    DistinctParts(b + h, l, 1, 2, 3);
    DistinctParts(b + h + l, e, 1, 3, 4);
    DistinctParts(s, b + h + l + e, 0, 0, 4);
  }

  // ---------------------------------------------------------------- defaulting

  lemma DefaultsIdempotent(p: ProfileConfig, s: ServerConfig)
    ensures ProfileDefaults(ProfileDefaults(p)) == ProfileDefaults(p)
    ensures ServerDefaults(ServerDefaults(s)) == ServerDefaults(s)
  {
  }

  /** Filling in defaults first never changes the verdict, nor does the enabled flag stored in a profile. */
  lemma ReasonsIgnoreDefaults(p: ProfileConfig, flag: bool, tunnelEnabled: bool)
    ensures ProfileReasons(ProfileDefaults(p), tunnelEnabled) == ProfileReasons(p, tunnelEnabled)
    ensures ProfileReasons(p.(tunnel := p.tunnel.(enabled := flag)), tunnelEnabled) == ProfileReasons(p, tunnelEnabled)
  {
    DefaultsIdempotent(p, BLANK_CONFIG.server);
    var q := ProfileDefaults(p.(tunnel := p.tunnel.(enabled := flag)));
    assert BasicTunnelReasons(q.tunnel) == BasicTunnelReasons(ProfileDefaults(p).tunnel);
    assert EndpointReasons(q.tunnel) == EndpointReasons(ProfileDefaults(p).tunnel);
    hide BasicTunnelReasons, EndpointReasons, HealthReasons, LANReasons;
  }

  // ---------------------------------------------------------------- validation of a document

  predicate WellNamedUpTo(ps: seq<Profile>, bound: nat)
    requires bound <= |ps|
  {
    && (forall i :: 0 <= i < bound ==> !IsBlank(ps[i].id) && !IsBlank(ps[i].name))
    && (forall i, j :: 0 <= i < j < bound ==> ps[i].id != ps[j].id && ps[i].name != ps[j].name)
  }

  /** Ids and names are non-blank and pairwise different. */
  predicate WellNamed(ps: seq<Profile>) {
    WellNamedUpTo(ps, |ps|)
  }

  lemma NamingReasonsEmptyIff(ps: seq<Profile>, index: nat)
    requires index < |ps|
    ensures NamingReasons(ps, index) == [] <==>
            (&& !IsBlank(ps[index].id) && !IsBlank(ps[index].name)
             && (forall j :: 0 <= j < index ==> ps[j].id != ps[index].id && ps[j].name != ps[index].name))
  {
  }

  lemma WellNamedStep(ps: seq<Profile>, bound: nat)
    requires bound < |ps|
    ensures WellNamedUpTo(ps, bound + 1) <==>
            (&& WellNamedUpTo(ps, bound)
             && !IsBlank(ps[bound].id) && !IsBlank(ps[bound].name)
             && (forall j :: 0 <= j < bound ==> ps[j].id != ps[bound].id && ps[j].name != ps[bound].name))
  {
    hide IsBlank;
  }

  lemma {:induction false} AllNamingReasonsEmptyIff(ps: seq<Profile>, bound: nat)
    requires bound <= |ps|
    ensures AllNamingReasons(ps, bound) == [] <==> WellNamedUpTo(ps, bound)
  {
    hide NamingReasons, IsBlank, WellNamedUpTo;
    if bound > 0 {
      AllNamingReasonsEmptyIff(ps, bound - 1);
      NamingReasonsEmptyIff(ps, bound - 1);
      WellNamedStep(ps, bound - 1);
    } else {
      WellNamedNothing(ps);
    }
  }

  lemma WellNamedNothing(ps: seq<Profile>)
    ensures WellNamedUpTo(ps, 0)
  {
  }

  lemma FirstIsLast(ps: seq<Profile>, id: string)
    requires WellNamed(ps)
    ensures LastWithID(ps, id, |ps|) == var i := FirstWithID(ps, id); if i < |ps| then Some(i) else None
  {
  }

  lemma {:induction false} FirstWithIDSame(ps: seq<Profile>, qs: seq<Profile>, id: string)
    requires |ps| == |qs| && forall i :: 0 <= i < |ps| ==> ps[i].id == qs[i].id
    ensures FirstWithID(ps, id) == FirstWithID(qs, id)
  {
    if ps != [] && ps[0].id != id {
      FirstWithIDSame(ps[1..], qs[1..], id);
    }
  }

  /** The document with a blank active id read as the default one. */
  function WithActiveID(d: Document): Document {
    d.(activeProfileID := if IsBlank(d.activeProfileID) then DEFAULT_PROFILE_ID else d.activeProfileID)
  }

  /** Profile i of a checked document: same id and name, defaults filled in, judged by its own settings. */
  ghost predicate CheckedProfile(d: Document, i: nat)
    requires i < |d.profiles|
  {
    var q := Checked(d).profiles[i];
    var enabled := d.profiles[i].id == Checked(d).activeProfileID ==> d.tunnelEnabled;
    && q.id == d.profiles[i].id
    && q.name == d.profiles[i].name
    && q.config == ProfileDefaults(d.profiles[i].config)
    && q.validationErrors == ProfileReasons(d.profiles[i].config, enabled)
    && q.isValid == (q.validationErrors == [])
  }

  lemma CheckedProfileShape(d: Document, i: nat)
    requires i < |d.profiles|
    ensures CheckedProfile(d, i)
  {
    var e := DocumentDefaults(d);
    assert e.profiles[i] == d.profiles[i].(config := ProfileDefaults(d.profiles[i].config));
    ReasonsIgnoreDefaults(d.profiles[i].config, false, d.profiles[i].id == e.activeProfileID ==> d.tunnelEnabled);
    hide ProfileReasons, ProfileDefaults;
  }

  lemma CheckedShape(d: Document)
    ensures var c := Checked(d);
            && |c.profiles| == |d.profiles|
            && !IsBlank(c.activeProfileID)
            && c.server == ServerDefaults(d.server)
            && c.tunnelEnabled == d.tunnelEnabled
            && c.activeProfileID == WithActiveID(d).activeProfileID
            && c.storageFormat == (if IsBlank(d.storageFormat) then FORMAT_PROFILES else d.storageFormat)
            && FirstWithID(c.profiles, c.activeProfileID) == FirstWithID(d.profiles, c.activeProfileID)
    ensures forall i :: 0 <= i < |d.profiles| ==> CheckedProfile(d, i)
  {
    var c := Checked(d);
    assert !IsSpace(DEFAULT_PROFILE_ID[0]);
    forall i | 0 <= i < |d.profiles|
      ensures CheckedProfile(d, i)
    {
      CheckedProfileShape(d, i);
    }
    FirstWithIDSame(c.profiles, d.profiles, c.activeProfileID);
    hide ProfileReasons, ProfileDefaults, FirstWithID, DefaultAll, RefreshAll, IsBlank;
  }

  /** The effective config of the checked document is judged like the active profile in it. */
  lemma {:induction false} ActiveConfigReasons(d: Document)
    requires ActiveProfile(Checked(d)).Some?
    ensures var c := ActiveConfig(Checked(d));
            && c.Some?
            && ConfigReasons(c.value) ==
               ServerReasons(ServerDefaults(d.server))
               + ProfileReasons(ActiveProfile(Checked(d)).value.config, d.tunnelEnabled)
  {
    CheckedShape(d);
    hide Checked;
    var p := ActiveProfile(Checked(d)).value.config;
    var on := p.(tunnel := p.tunnel.(enabled := d.tunnelEnabled));
    ReasonsIgnoreDefaults(on, d.tunnelEnabled, d.tunnelEnabled);
    ReasonsIgnoreDefaults(p, d.tunnelEnabled, d.tunnelEnabled);
    DefaultsIdempotent(p, d.server);
    hide ProfileReasons, ServerReasons;
    assert ProfilePart(ActiveConfig(Checked(d)).value) == ProfileDefaults(on);
  }

  /** Validation of a checked document, failure lists left aside. */
  lemma CheckedReasonsEmptyIff(c: Document)
    requires !IsBlank(c.activeProfileID)
    ensures CheckedReasons(c) == [] <==>
            (&& ServerReasons(c.server) == []
             && WellNamed(c.profiles)
             && ActiveProfile(c).Some?
             && ActiveProfile(c).value.validationErrors == [])
  {
    AllNamingReasonsEmptyIff(c.profiles, |c.profiles|);
    if WellNamed(c.profiles) {
      FirstIsLast(c.profiles, c.activeProfileID);
    }
    hide ServerReasons, IsBlank, AllNamingReasons, WellNamedUpTo, FirstWithID, LastWithID;
  }

  /** A document is valid exactly when its profiles are well named, the active one exists and its
      effective config is valid. Inactive profiles may be unfinished drafts. */
  lemma {:induction false} ValidDocumentIff(d: Document)
    ensures ValidDocument(d) <==>
            (&& WellNamed(d.profiles)
             && ActiveConfig(Checked(d)).Some?
             && ValidConfig(ActiveConfig(Checked(d)).value))
  {
    CheckedShape(d);
    var c := Checked(d);
    CheckedReasonsEmptyIff(c);
    SameNames(d);
    hide Checked, ProfileReasons, ServerReasons, ConfigReasons, CheckedReasons, WellNamed, IsBlank, ProfileDefaults;
    if ActiveProfile(c).Some? {
      ActiveConfigReasons(d);
      var i := FirstWithID(c.profiles, c.activeProfileID);
      assert CheckedProfile(d, i);
      ReasonsIgnoreDefaults(d.profiles[i].config, false, d.tunnelEnabled);
    }
    hide FirstWithID;
  }

  /** Checking a document does not change the effective config it stands for. */
  lemma {:induction false} ActiveConfigOfChecked(d: Document)
    ensures ActiveConfig(Checked(d)) == ActiveConfig(WithActiveID(d))
  {
    CheckedShape(d);
    var c := Checked(d);
    assert c.activeProfileID == WithActiveID(d).activeProfileID;
    hide Checked, FirstWithID, ProfileReasons, IsBlank, Effective, ProfileDefaults, ServerDefaults;
    var i := FirstWithID(d.profiles, c.activeProfileID);
    if i < |d.profiles| {
      assert CheckedProfile(d, i);
      EffectiveOfDefaults(d.profiles[i].config, d.tunnelEnabled, d.server);
    }
  }

  lemma EffectiveOfDefaults(p: ProfileConfig, enabled: bool, s: ServerConfig)
    ensures Effective(ProfileDefaults(p), enabled, ServerDefaults(s)) == Effective(p, enabled, s)
  {
    hide IsBlank;
  }

  /** The document with the settings of profile i rewritten. */
  function WithDraft(d: Document, i: nat, draft: ProfileConfig): Document
    requires i < |d.profiles|
  {
    d.(profiles := d.profiles[i := d.profiles[i].(config := draft)])
  }

  lemma DraftKeepsNames(d: Document, i: nat, draft: ProfileConfig)
    requires i < |d.profiles|
    ensures WellNamed(WithDraft(d, i, draft).profiles) <==> WellNamed(d.profiles)
    ensures WithActiveID(WithDraft(d, i, draft)) == WithDraft(WithActiveID(d), i, draft)
  {
    WellNamedSame(d.profiles, WithDraft(d, i, draft).profiles);
    hide WellNamed, IsBlank;
  }

  lemma DraftKeepsActiveConfig(d: Document, i: nat, draft: ProfileConfig)
    requires i < |d.profiles| && d.profiles[i].id != d.activeProfileID
    ensures ActiveConfig(WithDraft(d, i, draft)) == ActiveConfig(d)
  {
    FirstWithIDSame(d.profiles, WithDraft(d, i, draft).profiles, d.activeProfileID);
    hide FirstWithID, Effective;
  }

  /** Rewriting the settings of an inactive profile, however badly, never changes the verdict. */
  lemma {:induction false} DraftsDontMatter(d: Document, i: nat, draft: ProfileConfig)
    requires i < |d.profiles| && d.profiles[i].id != WithActiveID(d).activeProfileID
    ensures ValidDocument(WithDraft(d, i, draft)) <==> ValidDocument(d)
  {
    DraftKeepsActiveConfig(WithActiveID(d), i, draft);
    DraftKeepsNames(d, i, draft);
    hide Checked, ActiveConfig, ValidConfig, ValidDocument, WellNamed, WithDraft, WithActiveID;
    var e := WithDraft(d, i, draft);
    ActiveConfigOfChecked(d);
    ActiveConfigOfChecked(e);
    ValidDocumentIff(d);
    ValidDocumentIff(e);
  }

  lemma WellNamedSame(ps: seq<Profile>, qs: seq<Profile>)
    requires |ps| == |qs| && forall i :: 0 <= i < |ps| ==> ps[i].id == qs[i].id && ps[i].name == qs[i].name
    ensures WellNamed(ps) <==> WellNamed(qs)
  {
    hide IsBlank;
  }

  lemma SameNames(d: Document)
    ensures WellNamed(Checked(d).profiles) <==> WellNamed(d.profiles)
  {
    CheckedShape(d);
    hide Checked, IsBlank, WellNamed;
    forall i | 0 <= i < |d.profiles|
      ensures Checked(d).profiles[i].id == d.profiles[i].id && Checked(d).profiles[i].name == d.profiles[i].name
    {
      assert CheckedProfile(d, i);
    }
    WellNamedSame(Checked(d).profiles, d.profiles);
  }
}
