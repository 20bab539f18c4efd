/** Config and document as the objects the daemon updates in place. */
module Records {
  import opened Options
  import opened Text
  import opened Addresses
  import opened Config
  import Values = Config

  /** The LAN settings with their two lists as the shared storage they are. */
  datatype LANSettings = LANSettings(enabled: bool, dns: array<AddressText>, mode: string, networks: array<NetworkConfig>)

  /** An effective config: a caller's own copy may be written to. */
  class ConfigRecord {
    var tunnel: TunnelConfig
    var lan: LANSettings
    var health: HealthConfig
    var server: ServerConfig

    function LAN(): LANConfig
      reads this, lan.dns, lan.networks
    {
      LANConfig(lan.enabled, lan.dns[..], lan.mode, lan.networks[..])
    }

    function Value(): Config
      reads this, lan.dns, lan.networks
    {
      Config(tunnel, LAN(), health, server)
    }

    constructor (c: Config)
      ensures Value() == c
      ensures fresh(lan.dns) && fresh(lan.networks)
    {
      var dns := new AddressText[|c.lan.dns|](i requires 0 <= i < |c.lan.dns| => c.lan.dns[i]);
      var networks := new NetworkConfig[|c.lan.networks|](i requires 0 <= i < |c.lan.networks| => c.lan.networks[i]);
      tunnel := c.tunnel;
      lan := LANSettings(c.lan.enabled, dns, c.lan.mode, networks);
      health := c.health;
      server := c.server;
      new;
      assert dns[..] == c.lan.dns && networks[..] == c.lan.networks;
    }

    /** A deep copy: neither list is shared. */
    method Clone() returns (clone: ConfigRecord)
      ensures fresh(clone) && fresh(clone.lan.dns) && fresh(clone.lan.networks) && clone.Value() == Value()
    {
      clone := new ConfigRecord(Config(tunnel, LAN(), health, server));
    }

    /** The lists stay where they are. */
    method ApplyDefaults()
      modifies this
      ensures lan.dns == old(lan.dns) && lan.networks == old(lan.networks)
      ensures Value() == ConfigDefaults(old(Value()))
    {
      hide IsBlank;
      var t, l, h, s := tunnel, lan, health, server;
      if IsBlank(t.broker) {
        t := t.(broker := BROKER_CUSTOM);
      }
      if t.ttl == 0 {
        t := t.(ttl := DEFAULT_TTL);
      }
      if t.mtu == 0 {
        t := t.(mtu := DEFAULT_MTU);
      }
      assert t == TunnelDefaults(tunnel);
      if IsBlank(l.mode) {
        l := l.(mode := DEFAULT_LAN_MODE);
      }
      if h.intervalSec == 0 {
        h := h.(intervalSec := DEFAULT_HEALTH_INTERVAL);
      }
      if h.target.IsBlank() {
        h := h.(target := DEFAULT_HEALTH_TARGET);
      }
      if s.port == 0 {
        s := s.(port := DEFAULT_PORT);
      }
      if IsBlank(s.wanInterface) {
        s := s.(wanInterface := DEFAULT_WAN_INTERFACE);
      }
      assert LANConfig(l.enabled, l.dns[..], l.mode, l.networks[..]) == LANDefaults(LAN());
      assert h == HealthDefaults(health) && s == ServerDefaults(server);
      hide TunnelDefaults, LANDefaults, HealthDefaults, ServerDefaults;
      tunnel, lan, health, server := t, l, h, s;
    }

    /** Validation reads the config and leaves it alone. */
    method Validate() returns (reasons: seq<Reason>)
      ensures reasons == ConfigReasons(Value())
    {
      reasons := ServerReasons(server);
      var more := ValidateProfileConfig(ProfileConfig(tunnel, LAN(), health), tunnel.enabled);
      reasons := reasons + more;
    }
  }

  // ---------------------------------------------------------------- validating one profile

  method ValidateNetworks(networks: seq<NetworkConfig>) returns (reasons: seq<Reason>)
    ensures reasons == NetworksReasons(networks, 0)
  {
    hide NetworkReasons;
    reasons := [];
    for i := 0 to |networks|
      invariant reasons + NetworksReasons(networks, i) == NetworksReasons(networks, 0)
    {
      reasons := reasons + NetworkReasons(networks[i], i);
    }
  }

  lemma ResolversStep(dns: seq<AddressText>, i: nat)
    requires i < |dns|
    ensures ResolversReasons(dns, i) == If(!IsIPv6Address(dns[i]), ResolverInvalid(i)) + ResolversReasons(dns, i + 1)
  {
  }

  method ValidateResolvers(dns: seq<AddressText>) returns (reasons: seq<Reason>)
    ensures reasons == ResolversReasons(dns, 0)
  {
    assert ResolversReasons(dns, |dns|) == [];
    hide ResolversReasons, IsIPv6Address;
    reasons := [];
    for i := 0 to |dns|
      invariant reasons + ResolversReasons(dns, i) == ResolversReasons(dns, 0)
    {
      ResolversStep(dns, i);
      if !IsIPv6Address(dns[i]) {
        reasons := reasons + [ResolverInvalid(i)];
      }
    }
  }

  method ValidateLAN(l: LANConfig) returns (reasons: seq<Reason>)
    ensures reasons == LANReasons(l)
  {
    hide NetworksReasons, ResolversReasons;
    reasons := [];
    if l.enabled {
      if |l.networks| == 0 {
        reasons := reasons + [NoNetworks];
      }
      var networks := ValidateNetworks(l.networks);
      reasons := reasons + networks;
      var resolvers := ValidateResolvers(l.dns);
      reasons := reasons + resolvers;
    }
  }

  /** validateProfileConfig: works on its own copy, defaults filled in. */
  method ValidateProfileConfig(given: ProfileConfig, tunnelEnabled: bool) returns (reasons: seq<Reason>)
    ensures reasons == ProfileReasons(given, tunnelEnabled)
  {
    hide BasicTunnelReasons, HealthReasons, LANReasons, EndpointReasons, ProfileDefaults;
    var c := ProfileDefaults(given);
    reasons := BasicTunnelReasons(c.tunnel);
    reasons := reasons + HealthReasons(c.health);
    var lan := ValidateLAN(c.lan);
    reasons := reasons + lan;
    if tunnelEnabled {
      reasons := reasons + EndpointReasons(c.tunnel);
    }
  }

  // ---------------------------------------------------------------- the document

  method CheckID(id: string, seen: map<string, nat>, ghost ps: seq<Profile>, index: nat)
    returns (reasons: seq<Reason>, seen': map<string, nat>)
    requires index < |ps| && ps[index].id == id && SeenIDs(seen, ps, index)
    ensures reasons == IDReasons(ps, index) && SeenIDs(seen', ps, index + 1)
  {
    hide IsBlank, SeenIDs, FirstWithID;
    SeenIDsStep(seen, ps, index);
    reasons, seen' := [], seen;
    if IsBlank(id) {
      reasons := [IDMissing(index)];
    } else {
      FirstSeenID(seen, ps, index);
      if id in seen {
        reasons := [IDNotUnique(index), IDConflicts(index, seen[id])];
      } else {
        seen' := seen[id := index];
      }
    }
  }

  method CheckName(name: string, seen: map<string, nat>, ghost ps: seq<Profile>, index: nat)
    returns (reasons: seq<Reason>, seen': map<string, nat>)
    requires index < |ps| && ps[index].name == name && SeenNames(seen, ps, index)
    ensures reasons == NameReasons(ps, index) && SeenNames(seen', ps, index + 1)
  {
    hide IsBlank, SeenNames, FirstWithName;
    SeenNamesStep(seen, ps, index);
    reasons, seen' := [], seen;
    if IsBlank(name) {
      reasons := [NameMissing(index)];
    } else {
      FirstSeenName(seen, ps, index);
      if name in seen {
        reasons := [NameNotUnique(index), NameConflicts(index, seen[name])];
      } else {
        seen' := seen[name := index];
      }
    }
  }

  class DocumentRecord {
    var storageFormat: string
    var tunnelEnabled: bool
    var activeProfileID: string
    var profiles: array<Profile>
    var server: ServerConfig

    function Value(): Document
      reads this, profiles
    {
      Document(storageFormat, tunnelEnabled, activeProfileID, profiles[..], server)
    }

    constructor (d: Document)
      ensures Value() == d && fresh(profiles)
    {
      storageFormat := d.storageFormat;
      tunnelEnabled := d.tunnelEnabled;
      activeProfileID := d.activeProfileID;
      server := d.server;
      profiles := new Profile[|d.profiles|](i requires 0 <= i < |d.profiles| => d.profiles[i]);
      new;
      assert profiles[..] == d.profiles;
    }

    /** A deep copy: no profile array is shared. */
    method Clone() returns (clone: DocumentRecord)
      ensures fresh(clone) && fresh(clone.profiles) && clone.Value() == Value()
    {
      clone := new DocumentRecord(Document(storageFormat, tunnelEnabled, activeProfileID, profiles[..], server));
    }

    method ApplyDefaults()
      modifies this, profiles
      ensures profiles == old(profiles)
      ensures Value() == DocumentDefaults(old(Value()))
    {
      hide IsBlank, ProfileDefaults;
      if IsBlank(storageFormat) {
        storageFormat := FORMAT_PROFILES;
      }
      if IsBlank(activeProfileID) {
        activeProfileID := DEFAULT_PROFILE_ID;
      }
      for i := 0 to profiles.Length
        invariant profiles == old(profiles) && server == old(server) && tunnelEnabled == old(tunnelEnabled)
        invariant storageFormat == DocumentDefaults(old(Value())).storageFormat
        invariant activeProfileID == DocumentDefaults(old(Value())).activeProfileID
        invariant forall k :: 0 <= k < i ==> profiles[k] == DefaultAll(old(profiles[..]))[k]
        invariant forall k :: i <= k < profiles.Length ==> profiles[k] == old(profiles[k])
      {
        profiles[i] := profiles[i].(config := ProfileDefaults(profiles[i].config));
      }
      assert profiles[..] == DefaultAll(old(profiles[..]));
      if server.port == 0 {
        server := server.(port := DEFAULT_PORT);
      }
      if IsBlank(server.wanInterface) {
        server := server.(wanInterface := DEFAULT_WAN_INTERFACE);
      }
    }

    method RefreshProfileValidation()
      modifies profiles
      ensures profiles == old(profiles)
      ensures Value() == Refreshed(old(Value()))
    {
      hide ProfileReasons;
      ghost var d := Value();
      for i := 0 to profiles.Length
        invariant profiles == old(profiles) && |d.profiles| == profiles.Length
        invariant forall k :: 0 <= k < i ==> profiles[k] == RefreshAll(d)[k]
        invariant forall k :: i <= k < profiles.Length ==> profiles[k] == d.profiles[k]
      {
        var enabled := true;
        if profiles[i].id == activeProfileID {
          enabled := tunnelEnabled;
        }
        var reasons := ValidateProfileConfig(profiles[i].config, enabled);
        profiles[i] := profiles[i].(validationErrors := reasons, isValid := |reasons| == 0);
      }
      assert profiles[..] == RefreshAll(d);
    }

    /** The failures of a document whose defaults and judgements are up to date; ids and names seen so far
        are kept in two maps, and a later profile with the active id wins. */
    method CollectReasons() returns (reasons: seq<Reason>)
      ensures reasons == CheckedReasons(Value())
    {
      hide ServerReasons, IsBlank, SeenIDs, SeenNames, FirstWithID, FirstWithName, LastWithID, Wrap, IDReasons,
           NameReasons;
      ghost var ps := profiles[..];
      NothingSeen(ps, activeProfileID);
      reasons := ServerReasons(server);
      if profiles.Length == 0 {
        return reasons + [NoProfiles];
      }
      var seenIDs: map<string, nat> := map[];
      var seenNames: map<string, nat> := map[];
      var active: Option<nat> := None;
      for index := 0 to profiles.Length
        invariant reasons == ServerReasons(server) + AllNamingReasons(ps, index)
        invariant SeenIDs(seenIDs, ps, index) && SeenNames(seenNames, ps, index)
        invariant active == LastWithID(ps, activeProfileID, index)
      {
        var profile := profiles[index];
        var naming: seq<Reason>;
        naming, seenIDs := CheckID(profile.id, seenIDs, ps, index);
        reasons := reasons + naming;
        naming, seenNames := CheckName(profile.name, seenNames, ps, index);
        reasons := reasons + naming;
        LastStep(ps, activeProfileID, index);
        if profile.id == activeProfileID {
          active := Some(index);
        }
      }
      if IsBlank(activeProfileID) {
        reasons := reasons + [ActiveProfileIDMissing];
      } else if active.None? {
        reasons := reasons + [ActiveProfileUnknown];
      }
      if active.Some? {
        reasons := reasons + Wrap(active.value, profiles[active.value].validationErrors);
      }
    }

    /** ValidationReasons: fills in defaults, judges every profile, then collects the failures. */
    method ValidationReasons() returns (reasons: seq<Reason>)
      modifies this, profiles
      ensures profiles == old(profiles)
      ensures Value() == Checked(old(Value()))
      ensures reasons == DocumentReasons(old(Value()))
    {
      hide CheckedReasons, DocumentDefaults, Refreshed;
      ApplyDefaults();
      RefreshProfileValidation();
      reasons := CollectReasons();
    }

    /** ActiveProfile: a copy of the first profile with the active id. */
    method ActiveProfile() returns (active: Option<Profile>)
      ensures active == Values.ActiveProfile(Value())
    {
      for index := 0 to profiles.Length
        invariant forall k :: 0 <= k < index ==> profiles[k].id != activeProfileID
      {
        if profiles[index].id == activeProfileID {
          FirstIs(profiles[..], activeProfileID, index);
          return Some(profiles[index]);
        }
      }
      FirstIs(profiles[..], activeProfileID, profiles.Length);
      return None;
    }

    /** ActiveConfig: a new effective config of the active profile. */
    method ActiveConfig() returns (config: ConfigRecord?)
      ensures config != null ==> fresh(config) && fresh(config.lan.dns) && fresh(config.lan.networks)
      ensures (if config == null then None else Some(config.Value())) == Values.ActiveConfig(Value())
    {
      hide ConfigDefaults;
      var active := ActiveProfile();
      if active.None? {
        return null;
      }
      var p := active.value.config;
      config := new ConfigRecord(Config(p.tunnel, p.lan, p.health, server));
      config.tunnel := config.tunnel.(enabled := tunnelEnabled);
      config.ApplyDefaults();
    }

    /** replaceActiveProfileConfig: in place, the first match only. */
    method ReplaceActive(c: Config) returns (found: bool)
      modifies profiles
      ensures profiles == old(profiles)
      ensures found <==> Values.ReplaceActive(old(Value()), c).Some?
      ensures found ==> Value() == Values.ReplaceActive(old(Value()), c).value
      ensures !found ==> Value() == old(Value())
    {
      for index := 0 to profiles.Length
        invariant profiles == old(profiles) && profiles[..] == old(profiles[..])
        invariant forall k :: 0 <= k < index ==> profiles[k].id != activeProfileID
      {
        if profiles[index].id != activeProfileID {
          continue;
        }
        FirstIs(profiles[..], activeProfileID, index);
        profiles[index] := profiles[index].(config := ProfilePart(c));
        profiles[index] := profiles[index].(config := profiles[index].config.(tunnel := profiles[index].config.tunnel.(enabled := false)));
        return true;
      }
      FirstIs(profiles[..], activeProfileID, profiles.Length);
      return false;
    }
  }

  // ---------------------------------------------------------------- the scans

  predicate IsFirstID(ps: seq<Profile>, id: string, i: nat) {
    i < |ps| && ps[i].id == id && forall j :: 0 <= j < i ==> ps[j].id != id
  }

  predicate IsFirstName(ps: seq<Profile>, name: string, i: nat) {
    i < |ps| && ps[i].name == name && forall j :: 0 <= j < i ==> ps[j].name != name
  }

  /** The map holds the non-blank ids of the first `bound` profiles, each with its first index. */
  ghost predicate SeenIDs(seen: map<string, nat>, ps: seq<Profile>, bound: nat)
    requires bound <= |ps|
  {
    && (forall id <- seen.Keys :: !IsBlank(id) && seen[id] < bound && IsFirstID(ps, id, seen[id]))
    && (forall k :: 0 <= k < bound && !IsBlank(ps[k].id) ==> ps[k].id in seen)
  }

  ghost predicate SeenNames(seen: map<string, nat>, ps: seq<Profile>, bound: nat)
    requires bound <= |ps|
  {
    && (forall name <- seen.Keys :: !IsBlank(name) && seen[name] < bound && IsFirstName(ps, name, seen[name]))
    && (forall k :: 0 <= k < bound && !IsBlank(ps[k].name) ==> ps[k].name in seen)
  }

  lemma NothingSeen(ps: seq<Profile>, id: string)
    ensures SeenIDs(map[], ps, 0) && SeenNames(map[], ps, 0) && LastWithID(ps, id, 0) == None
  {
  }

  lemma LastStep(ps: seq<Profile>, id: string, index: nat)
    requires index < |ps|
    ensures LastWithID(ps, id, index + 1) == if ps[index].id == id then Some(index) else LastWithID(ps, id, index)
  {
  }

  /** One step of the scan: an id was seen before exactly if the first profile with it comes earlier. */
  lemma FirstSeenID(seen: map<string, nat>, ps: seq<Profile>, index: nat)
    requires index < |ps| && SeenIDs(seen, ps, index) && !IsBlank(ps[index].id)
    ensures var id := ps[index].id; FirstWithID(ps, id) == if id in seen then seen[id] else index
    ensures var id := ps[index].id; id in seen ==> seen[id] < index
  {
    hide IsBlank;
    var id := ps[index].id;
    if id in seen {
      FirstIs(ps, id, seen[id]);
    } else {
      FirstIs(ps, id, index);
    }
  }

  lemma SeenIDsStep(seen: map<string, nat>, ps: seq<Profile>, index: nat)
    requires index < |ps| && SeenIDs(seen, ps, index)
    ensures var id := ps[index].id;
            SeenIDs(if IsBlank(id) || id in seen then seen else seen[id := index], ps, index + 1)
  {
    hide IsBlank, IsFirstID;
    var id := ps[index].id;
    if !IsBlank(id) && id !in seen {
      NewID(seen, ps, index);
    }
  }

  lemma NewID(seen: map<string, nat>, ps: seq<Profile>, index: nat)
    requires index < |ps| && SeenIDs(seen, ps, index) && !IsBlank(ps[index].id) && ps[index].id !in seen
    ensures IsFirstID(ps, ps[index].id, index)
  {
    hide IsBlank;
  }

  lemma FirstSeenName(seen: map<string, nat>, ps: seq<Profile>, index: nat)
    requires index < |ps| && SeenNames(seen, ps, index) && !IsBlank(ps[index].name)
    ensures var name := ps[index].name; FirstWithName(ps, name) == if name in seen then seen[name] else index
    ensures var name := ps[index].name; name in seen ==> seen[name] < index
  {
    hide IsBlank;
    var name := ps[index].name;
    if name in seen {
      FirstNameIs(ps, name, seen[name]);
    } else {
      FirstNameIs(ps, name, index);
    }
  }

  lemma SeenNamesStep(seen: map<string, nat>, ps: seq<Profile>, index: nat)
    requires index < |ps| && SeenNames(seen, ps, index)
    ensures var name := ps[index].name;
            SeenNames(if IsBlank(name) || name in seen then seen else seen[name := index], ps, index + 1)
  {
    hide IsBlank, IsFirstName;
    var name := ps[index].name;
    if !IsBlank(name) && name !in seen {
      NewName(seen, ps, index);
    }
  }

  lemma NewName(seen: map<string, nat>, ps: seq<Profile>, index: nat)
    requires index < |ps| && SeenNames(seen, ps, index) && !IsBlank(ps[index].name) && ps[index].name !in seen
    ensures IsFirstName(ps, ps[index].name, index)
  {
    hide IsBlank;
  }

  lemma FirstNameIs(ps: seq<Profile>, name: string, index: nat)
    requires IsFirstName(ps, name, index)
    ensures FirstWithName(ps, name) == index
  {
  }

  lemma FirstIs(ps: seq<Profile>, id: string, index: nat)
    requires index <= |ps| && (forall k :: 0 <= k < index ==> ps[k].id != id) && (index < |ps| ==> ps[index].id == id)
    ensures FirstWithID(ps, id) == index
  {
  }
}
