/** The configuration model of internal/config: the effective config, the multi-profile document,
    defaulting, validation and the view of the document as one effective config. */
module Config {
  import opened Options
  import opened Text
  import opened Addresses

  const DEFAULT_TTL: int := 255
  const DEFAULT_MTU: int := 0
  const DEFAULT_PORT: int := 9086
  const DEFAULT_WAN_INTERFACE: string := "ppp0"
  const DEFAULT_HEALTH_INTERVAL: int := 30
  const DEFAULT_HEALTH_TARGET: AddressText :=
    AddressText.AddressText(Address(true, 0x2001_4860_4860_0000_0000_0000_0000_8888))
  const DEFAULT_LAN_MODE: string := "slaac"
  const BROKER_CUSTOM: string := "custom"
  const DEFAULT_PROFILE_ID: string := "default"
  const DEFAULT_PROFILE_NAME: string := "Default"
  const SUPPORTED_BROKERS: seq<string> := ["he", "ip4market", "6in4ru", BROKER_CUSTOM]
  const FORMAT_LEGACY: string := "legacy"
  const FORMAT_PROFILES: string := "profiles"

  datatype TunnelConfig = TunnelConfig(
    enabled: bool, broker: string, remoteEndpoint: string, localIPv6: PrefixText,
    remoteIPv6: string, ttl: int, mtu: int)

  datatype NetworkConfig = NetworkConfig(iface: string, prefix: PrefixText, comment: string)

  datatype LANConfig = LANConfig(enabled: bool, dns: seq<AddressText>, mode: string, networks: seq<NetworkConfig>)

  datatype HealthConfig = HealthConfig(enabled: bool, intervalSec: int, target: AddressText, autoRestart: bool)

  datatype ServerConfig = ServerConfig(port: int, wanInterface: string, authToken: string)

  /** The effective configuration of the active profile. */
  datatype Config = Config(tunnel: TunnelConfig, lan: LANConfig, health: HealthConfig, server: ServerConfig)

  datatype ProfileConfig = ProfileConfig(tunnel: TunnelConfig, lan: LANConfig, health: HealthConfig)

  datatype Profile = Profile(
    id: string, name: string, config: ProfileConfig, isValid: bool, validationErrors: seq<Reason>)

  datatype Document = Document(
    storageFormat: string, tunnelEnabled: bool, activeProfileID: string, profiles: seq<Profile>, server: ServerConfig)

  /** Validation failures; an index tells which network, resolver or profile is at fault. */
  datatype Reason =
    | PortNotPositive
    | WANInterfaceMissing
    | BrokerUnsupported
    | TTLNotPositive
    | MTUNegative
    | IntervalNotPositive
    | TargetMissing
    | TargetInvalid
    | NoNetworks
    | InterfaceMissing(index: nat)
    | PrefixMissing(index: nat)
    | PrefixInvalid(index: nat)
    | PrefixNotIPv6(index: nat)
    | ResolverInvalid(index: nat)
    | EndpointMissing
    | EndpointInvalid
    | LocalIPv6Missing
    | LocalIPv6Invalid
    | NoProfiles
    | IDMissing(index: nat)
    | IDNotUnique(index: nat)
    | IDConflicts(index: nat, previous: nat)
    | NameMissing(index: nat)
    | NameNotUnique(index: nat)
    | NameConflicts(index: nat, previous: nat)
    | ActiveProfileIDMissing
    | ActiveProfileUnknown
    | InActiveProfile(index: nat, reason: Reason)

  // ---------------------------------------------------------------- defaults

  function TunnelDefaults(t: TunnelConfig): TunnelConfig {
    t.(broker := if IsBlank(t.broker) then BROKER_CUSTOM else t.broker,
       ttl := if t.ttl == 0 then DEFAULT_TTL else t.ttl,
       mtu := if t.mtu == 0 then DEFAULT_MTU else t.mtu)
  }

  function LANDefaults(l: LANConfig): LANConfig {
    l.(mode := if IsBlank(l.mode) then DEFAULT_LAN_MODE else l.mode)
  }

  function HealthDefaults(h: HealthConfig): HealthConfig {
    h.(intervalSec := if h.intervalSec == 0 then DEFAULT_HEALTH_INTERVAL else h.intervalSec,
       target := if h.target.IsBlank() then DEFAULT_HEALTH_TARGET else h.target)
  }

  function ServerDefaults(s: ServerConfig): ServerConfig {
    s.(port := if s.port == 0 then DEFAULT_PORT else s.port,
       wanInterface := if IsBlank(s.wanInterface) then DEFAULT_WAN_INTERFACE else s.wanInterface)
  }

  function ConfigDefaults(c: Config): Config {
    Config(TunnelDefaults(c.tunnel), LANDefaults(c.lan), HealthDefaults(c.health), ServerDefaults(c.server))
  }

  function ProfileDefaults(c: ProfileConfig): ProfileConfig {
    ProfileConfig(TunnelDefaults(c.tunnel), LANDefaults(c.lan), HealthDefaults(c.health))
  }

  /** Config.Defaults(). */
  const BLANK_CONFIG: Config :=
    Config(
      TunnelConfig(false, BROKER_CUSTOM, "", NoPrefix(""), "", DEFAULT_TTL, DEFAULT_MTU),
      LANConfig(false, [], DEFAULT_LAN_MODE, []),
      HealthConfig(true, DEFAULT_HEALTH_INTERVAL, DEFAULT_HEALTH_TARGET, true),
      ServerConfig(DEFAULT_PORT, DEFAULT_WAN_INTERFACE, ""))

  function DefaultAll(ps: seq<Profile>): (r: seq<Profile>)
    ensures |r| == |ps|
    ensures forall i :: 0 <= i < |ps| ==> r[i] == ps[i].(config := ProfileDefaults(ps[i].config))
  {
    seq(|ps|, i requires 0 <= i < |ps| => ps[i].(config := ProfileDefaults(ps[i].config)))
  }

  function DocumentDefaults(d: Document): Document {
    Document(
      if IsBlank(d.storageFormat) then FORMAT_PROFILES else d.storageFormat,
      d.tunnelEnabled,
      if IsBlank(d.activeProfileID) then DEFAULT_PROFILE_ID else d.activeProfileID,
      DefaultAll(d.profiles),
      ServerDefaults(d.server))
  }

  // ---------------------------------------------------------------- validation of a config

  /** One to three digits, no leading zero, at most 255. */
  predicate IsOctet(s: string) {
    && 1 <= |s| <= 3
    && (forall i :: 0 <= i < |s| ==> '0' <= s[i] <= '9')
    && (|s| > 1 ==> s[0] != '0')
    && (|s| == 3 ==> s[0] == '1' || (s[0] == '2' && (s[1] < '5' || (s[1] == '5' && s[2] <= '5'))))
  }

  /** net.ParseIP accepts the text and it has no colon: a dotted quad. */
  predicate IsIPv4(s: string) {
    var parts := Split(s, '.');
    |parts| == 4 && forall i :: 0 <= i < 4 ==> IsOctet(parts[i])
  }

  function If(failed: bool, reason: Reason): seq<Reason> {
    if failed then [reason] else []
  }

  function ServerReasons(s: ServerConfig): seq<Reason> {
    If(s.port <= 0, PortNotPositive) + If(IsBlank(s.wanInterface), WANInterfaceMissing)
  }

  function HealthReasons(h: HealthConfig): seq<Reason> {
    if !h.enabled then []
    else
      If(h.intervalSec <= 0, IntervalNotPositive)
      + (if h.target.IsBlank() then [TargetMissing] else If(!IsIPv6Address(h.target), TargetInvalid))
  }

  predicate IsIPv6Address(text: AddressText) {
    text.ParseTrimmed().Some? && text.ParseTrimmed().value.is6
  }

  predicate IsIPv6Prefix(text: PrefixText) {
    text.ParseTrimmed().Some? && text.ParseTrimmed().value.addr.is6
  }

  function NetworkReasons(n: NetworkConfig, index: nat): seq<Reason> {
    If(IsBlank(n.iface), InterfaceMissing(index))
    + (if n.prefix.IsBlank() then [PrefixMissing(index)]
       else if n.prefix.Parse().None? then [PrefixInvalid(index)]
       else If(!n.prefix.Parse().value.addr.is6, PrefixNotIPv6(index)))
  }

  /** The failures of the networks from `index` on. */
  function NetworksReasons(ns: seq<NetworkConfig>, index: nat): seq<Reason>
    decreases |ns| - index
  {
    if index >= |ns| then [] else NetworkReasons(ns[index], index) + NetworksReasons(ns, index + 1)
  }

  function ResolversReasons(dns: seq<AddressText>, index: nat): seq<Reason>
    decreases |dns| - index
  {
    if index >= |dns| then []
    else If(!IsIPv6Address(dns[index]), ResolverInvalid(index)) + ResolversReasons(dns, index + 1)
  }

  function LANReasons(l: LANConfig): seq<Reason> {
    if !l.enabled then []
    else If(l.networks == [], NoNetworks) + NetworksReasons(l.networks, 0) + ResolversReasons(l.dns, 0)
  }

  function BasicTunnelReasons(t: TunnelConfig): seq<Reason> {
    If(t.broker !in SUPPORTED_BROKERS, BrokerUnsupported)
    + If(t.ttl <= 0, TTLNotPositive)
    + If(t.mtu < 0, MTUNegative)
  }

  function EndpointReasons(t: TunnelConfig): seq<Reason> {
    (if IsBlank(t.remoteEndpoint) then [EndpointMissing] else If(!IsIPv4(t.remoteEndpoint), EndpointInvalid))
    + (if t.localIPv6.IsBlank() then [LocalIPv6Missing] else If(!IsIPv6Prefix(t.localIPv6), LocalIPv6Invalid))
  }

  /** validateProfileConfig: defaults are filled in first. */
  function ProfileReasons(given: ProfileConfig, tunnelEnabled: bool): seq<Reason> {
    var c := ProfileDefaults(given);
    BasicTunnelReasons(c.tunnel)
    + HealthReasons(c.health)
    + LANReasons(c.lan)
    + (if tunnelEnabled then EndpointReasons(c.tunnel) else [])
  }

  function ProfilePart(c: Config): ProfileConfig {
    ProfileConfig(c.tunnel, c.lan, c.health)
  }

  function ConfigReasons(c: Config): seq<Reason> {
    ServerReasons(c.server) + ProfileReasons(ProfilePart(c), c.tunnel.enabled)
  }

  predicate ValidConfig(c: Config) {
    ConfigReasons(c) == []
  }

  // ---------------------------------------------------------------- documents

  function Revalidated(p: Profile, tunnelEnabled: bool): Profile {
    var reasons := ProfileReasons(p.config, tunnelEnabled);
    p.(validationErrors := reasons, isValid := reasons == [])
  }

  function RefreshAll(d: Document): (r: seq<Profile>)
    ensures |r| == |d.profiles|
    ensures forall i :: 0 <= i < |r| ==>
      r[i] == Revalidated(d.profiles[i], d.profiles[i].id == d.activeProfileID ==> d.tunnelEnabled)
  {
    seq(|d.profiles|, i requires 0 <= i < |d.profiles| =>
      Revalidated(d.profiles[i], d.profiles[i].id == d.activeProfileID ==> d.tunnelEnabled))
  }

  function Refreshed(d: Document): Document {
    d.(profiles := RefreshAll(d))
  }

  /** The document as Validate leaves it: defaults filled in, every profile judged anew. */
  function Checked(d: Document): Document {
    Refreshed(DocumentDefaults(d))
  }

  /** First index with the given id, or |ps|. */
  function FirstWithID(ps: seq<Profile>, id: string): (i: nat)
    ensures i <= |ps|
    ensures i < |ps| ==> ps[i].id == id
    ensures forall j :: 0 <= j < i ==> ps[j].id != id
  {
    if ps == [] || ps[0].id == id then 0 else 1 + FirstWithID(ps[1..], id)
  }

  function FirstWithName(ps: seq<Profile>, name: string): (i: nat)
    ensures i <= |ps|
    ensures i < |ps| ==> ps[i].name == name
    ensures forall j :: 0 <= j < i ==> ps[j].name != name
  {
    if ps == [] || ps[0].name == name then 0 else 1 + FirstWithName(ps[1..], name)
  }

  /** Last index below `bound` with the given id; validation lets later matches win. */
  function LastWithID(ps: seq<Profile>, id: string, bound: nat): (r: Option<nat>)
    requires bound <= |ps|
    ensures r.Some? ==> r.value < bound && ps[r.value].id == id
    ensures r.Some? ==> forall j :: r.value < j < bound ==> ps[j].id != id
    ensures r.None? ==> forall j :: 0 <= j < bound ==> ps[j].id != id
  {
    if bound == 0 then None
    else if ps[bound - 1].id == id then Some(bound - 1)
    else LastWithID(ps, id, bound - 1)
  }

  function IDReasons(ps: seq<Profile>, index: nat): seq<Reason>
    requires index < |ps|
  {
    var same := FirstWithID(ps, ps[index].id);
    if IsBlank(ps[index].id) then [IDMissing(index)]
    else if same < index then [IDNotUnique(index), IDConflicts(index, same)] else []
  }

  function NameReasons(ps: seq<Profile>, index: nat): seq<Reason>
    requires index < |ps|
  {
    var same := FirstWithName(ps, ps[index].name);
    if IsBlank(ps[index].name) then [NameMissing(index)]
    else if same < index then [NameNotUnique(index), NameConflicts(index, same)] else []
  }

  function NamingReasons(ps: seq<Profile>, index: nat): seq<Reason>
    requires index < |ps|
  {
    IDReasons(ps, index) + NameReasons(ps, index)
  }

  /** Failures in ids and names of the first `bound` profiles. */
  function AllNamingReasons(ps: seq<Profile>, bound: nat): seq<Reason>
    requires bound <= |ps|
  {
    if bound == 0 then [] else AllNamingReasons(ps, bound - 1) + NamingReasons(ps, bound - 1)
  }

  function Wrap(index: nat, reasons: seq<Reason>): (r: seq<Reason>)
    ensures |r| == |reasons|
  {
    seq(|reasons|, i requires 0 <= i < |reasons| => InActiveProfile(index, reasons[i]))
  }

  /** ValidationReasons of a document on which defaults and profile judgements are up to date. */
  function CheckedReasons(d: Document): seq<Reason> {
    if d.profiles == [] then ServerReasons(d.server) + [NoProfiles]
    else
      var active := LastWithID(d.profiles, d.activeProfileID, |d.profiles|);
      ServerReasons(d.server)
      + AllNamingReasons(d.profiles, |d.profiles|)
      + (if IsBlank(d.activeProfileID) then [ActiveProfileIDMissing]
         else If(active.None?, ActiveProfileUnknown))
      + (if active.Some? then Wrap(active.value, d.profiles[active.value].validationErrors) else [])
  }

  function DocumentReasons(d: Document): seq<Reason> {
    CheckedReasons(Checked(d))
  }

  predicate ValidDocument(d: Document) {
    DocumentReasons(d) == []
  }

  /** ActiveProfile: the first match. */
  function ActiveProfile(d: Document): Option<Profile> {
    var i := FirstWithID(d.profiles, d.activeProfileID);
    if i < |d.profiles| then Some(d.profiles[i]) else None
  }

  /** The effective config made of one profile's settings and the shared ones. */
  function Effective(p: ProfileConfig, tunnelEnabled: bool, server: ServerConfig): Config {
    ConfigDefaults(Config(p.tunnel.(enabled := tunnelEnabled), p.lan, p.health, server))
  }

  function ActiveConfig(d: Document): Option<Config> {
    match ActiveProfile(d)
    case None => None
    case Some(p) => Some(Effective(p.config, d.tunnelEnabled, d.server))
  }

  /** Replaces the settings of the first profile with the active id. */
  function ReplaceActive(d: Document, c: Config): Option<Document> {
    var i := FirstWithID(d.profiles, d.activeProfileID);
    if i < |d.profiles|
    then Some(d.(profiles := d.profiles[i := d.profiles[i].(config := ProfilePart(c).(tunnel := c.tunnel.(enabled := false)))]))
    else None
  }

  /** Writes a whole effective config into the document: the setter that ActiveConfig reads back. */
  function PutConfig(d: Document, c: Config): Option<Document> {
    ReplaceActive(d.(tunnelEnabled := c.tunnel.enabled, server := c.server), c)
  }

  /** DocumentFromConfig: one default profile. */
  function DocumentFromConfig(given: Config, format: string): Document {
    var c := ConfigDefaults(given);
    Refreshed(Document(format, c.tunnel.enabled, DEFAULT_PROFILE_ID,
      [Profile(DEFAULT_PROFILE_ID, DEFAULT_PROFILE_NAME, ProfilePart(c).(tunnel := c.tunnel.(enabled := false)), false, [])],
      c.server))
  }
}
