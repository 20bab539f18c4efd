/** The config file: the two storage formats, parsing, updates and saving. JSON is modelled as the
    object it decodes to; a field that may be absent is optional. */
module Storage {
  import opened Options
  import opened Text
  import opened Addresses
  import opened Config
  import opened ConfigLaws

  datatype RawTunnel = RawTunnel(
    enabled: Option<bool>, broker: Option<string>, remoteEndpoint: Option<string>,
    localIPv6: Option<PrefixText>, remoteIPv6: Option<string>, ttl: Option<int>, mtu: Option<int>)

  datatype RawLAN = RawLAN(
    enabled: Option<bool>, dns: Option<seq<AddressText>>, mode: Option<string>, networks: Option<seq<NetworkConfig>>)

  datatype RawHealth = RawHealth(
    enabled: Option<bool>, intervalSec: Option<int>, target: Option<AddressText>, autoRestart: Option<bool>)

  datatype RawServer = RawServer(port: Option<int>, wanInterface: Option<string>, authToken: Option<string>)

  /** A stored profile has no enabled flag; absent fields decode to zero values. */
  datatype RawProfile = RawProfile(
    id: string, name: string, broker: string, remoteEndpoint: string, localIPv6: PrefixText, remoteIPv6: string,
    ttl: int, mtu: int, lan: LANConfig, health: HealthConfig)

  /** One JSON object, with the fields of both formats. */
  datatype Raw = Raw(
    tunnelEnabled: Option<bool>, activeProfileID: string, profiles: Option<seq<RawProfile>>,
    tunnel: RawTunnel, lan: RawLAN, health: RawHealth, server: RawServer)

  const NO_TUNNEL: RawTunnel := RawTunnel(None, None, None, None, None, None, None)
  const NO_LAN: RawLAN := RawLAN(None, None, None, None)
  const NO_HEALTH: RawHealth := RawHealth(None, None, None, None)

  function Or<T>(field: Option<T>, default: T): T {
    match field
    case None => default
    case Some(v) => v
  }

  // ---------------------------------------------------------------- parsing

  predicate IsProfilesFormat(raw: Raw) {
    raw.tunnelEnabled.Some? || !IsBlank(raw.activeProfileID) || raw.profiles.Some?
  }

  /** parseLegacyConfig: fields override the defaults; without an enabled flag a tunnel whose two
      addresses are given counts as enabled. */
  function LegacyConfig(raw: Raw): Config {
    var b := BLANK_CONFIG;
    var endpoint := Or(raw.tunnel.remoteEndpoint, b.tunnel.remoteEndpoint);
    var local := Or(raw.tunnel.localIPv6, b.tunnel.localIPv6);
    var enabled := Or(raw.tunnel.enabled, !IsBlank(endpoint) && !local.IsBlank());
    ConfigDefaults(Config(
      TunnelConfig(enabled, Or(raw.tunnel.broker, b.tunnel.broker), endpoint, local,
        Or(raw.tunnel.remoteIPv6, b.tunnel.remoteIPv6), Or(raw.tunnel.ttl, b.tunnel.ttl), Or(raw.tunnel.mtu, b.tunnel.mtu)),
      LANConfig(Or(raw.lan.enabled, b.lan.enabled), Or(raw.lan.dns, b.lan.dns), Or(raw.lan.mode, b.lan.mode),
        Or(raw.lan.networks, b.lan.networks)),
      HealthConfig(Or(raw.health.enabled, b.health.enabled), Or(raw.health.intervalSec, b.health.intervalSec),
        Or(raw.health.target, b.health.target), Or(raw.health.autoRestart, b.health.autoRestart)),
      ServerConfig(Or(raw.server.port, b.server.port), Or(raw.server.wanInterface, b.server.wanInterface),
        Or(raw.server.authToken, b.server.authToken))))
  }

  function LoadedProfile(r: RawProfile): Profile {
    Profile(r.id, r.name,
      ProfileConfig(TunnelConfig(false, r.broker, r.remoteEndpoint, r.localIPv6, r.remoteIPv6, r.ttl, r.mtu), r.lan, r.health),
      false, [])
  }

  function LoadedProfiles(rs: seq<RawProfile>): (ps: seq<Profile>)
    ensures |ps| == |rs|
    ensures forall i :: 0 <= i < |rs| ==> ps[i] == LoadedProfile(rs[i])
  {
    seq(|rs|, i requires 0 <= i < |rs| => LoadedProfile(rs[i]))
  }

  function LoadedDocument(raw: Raw): Document {
    Document(
      FORMAT_PROFILES,
      Or(raw.tunnelEnabled, false),
      if IsBlank(raw.activeProfileID) then DEFAULT_PROFILE_ID else raw.activeProfileID,
      LoadedProfiles(Or(raw.profiles, [])),
      ServerConfig(Or(raw.server.port, 0), Or(raw.server.wanInterface, ""), Or(raw.server.authToken, "")))
  }

  /** Validate, and the document as it leaves it. */
  function Accepted(d: Document): Option<Document> {
    if ValidDocument(d) then Some(Checked(d)) else None
  }

  function ParseProfiles(raw: Raw): Option<Document> {
    Accepted(LoadedDocument(raw))
  }

  function ParseDocument(raw: Raw): Option<Document> {
    if IsProfilesFormat(raw) then ParseProfiles(raw)
    else Some(DocumentFromConfig(LegacyConfig(raw), FORMAT_LEGACY))
  }

  /** The config of a legacy update: an omitted enabled flag or port keeps its current value. */
  function LegacyUpdate(raw: Raw, current: Document): Config {
    var c := LegacyConfig(raw);
    c.(tunnel := c.tunnel.(enabled := if raw.tunnel.enabled.None? then current.tunnelEnabled else c.tunnel.enabled),
       server := c.server.(port := if raw.server.port.None? then current.server.port else c.server.port))
  }

  function ParseLegacyUpdate(raw: Raw, current: Document): Option<Document> {
    match PutConfig(current, LegacyUpdate(raw, current))
    case None => None
    case Some(d) => Accepted(d)
  }

  function ParseUpdate(raw: Raw, current: Document): Option<Document> {
    if IsProfilesFormat(raw) then ParseProfiles(raw) else ParseLegacyUpdate(raw, current)
  }

  // ---------------------------------------------------------------- saving

  function EncodeLegacy(c: Config): Raw {
    Raw(None, "", None,
      RawTunnel(Some(c.tunnel.enabled), Some(c.tunnel.broker), Some(c.tunnel.remoteEndpoint), Some(c.tunnel.localIPv6),
        Some(c.tunnel.remoteIPv6), Some(c.tunnel.ttl), Some(c.tunnel.mtu)),
      RawLAN(Some(c.lan.enabled), Some(c.lan.dns), Some(c.lan.mode), Some(c.lan.networks)),
      RawHealth(Some(c.health.enabled), Some(c.health.intervalSec), Some(c.health.target), Some(c.health.autoRestart)),
      RawServer(Some(c.server.port), Some(c.server.wanInterface), Some(c.server.authToken)))
  }

  function StoredProfile(p: Profile): RawProfile {
    var t := p.config.tunnel;
    RawProfile(p.id, p.name, t.broker, t.remoteEndpoint, t.localIPv6, t.remoteIPv6, t.ttl, t.mtu, p.config.lan, p.config.health)
  }

  function StoredProfiles(ps: seq<Profile>): (rs: seq<RawProfile>)
    ensures |rs| == |ps|
    ensures forall i :: 0 <= i < |ps| ==> rs[i] == StoredProfile(ps[i])
  {
    seq(|ps|, i requires 0 <= i < |ps| => StoredProfile(ps[i]))
  }

  function EncodeProfiles(d: Document): Raw {
    Raw(Some(d.tunnelEnabled), d.activeProfileID, Some(StoredProfiles(d.profiles)), NO_TUNNEL, NO_LAN, NO_HEALTH,
      RawServer(Some(d.server.port), Some(d.server.wanInterface), Some(d.server.authToken)))
  }

  predicate ShouldSaveLegacy(d: Document) {
    && d.storageFormat == FORMAT_LEGACY
    && |d.profiles| == 1
    && d.activeProfileID == DEFAULT_PROFILE_ID
    && d.profiles[0].id == DEFAULT_PROFILE_ID
    && d.profiles[0].name == DEFAULT_PROFILE_NAME
  }

  /** Save: defaults, validation, encoding. */
  function SaveConfig(given: Config): Option<Raw> {
    var c := ConfigDefaults(given);
    if ValidConfig(c) then Some(EncodeLegacy(c)) else None
  }

  /** SaveDocument up to the write: what would be written, or a validation error. */
  function SaveDocument(d: Document): Option<Raw> {
    match Accepted(d)
    case None => None
    case Some(c) =>
      if ShouldSaveLegacy(c) then
        match ActiveConfig(c)
        case None => None
        case Some(cfg) => SaveConfig(cfg)
      else Some(EncodeProfiles(c))
  }

  // ---------------------------------------------------------------- round trips

  function Unflagged(p: Profile): Profile {
    p.(config := p.config.(tunnel := p.config.tunnel.(enabled := false)))
  }

  function UnflaggedAll(ps: seq<Profile>): (qs: seq<Profile>)
    ensures |qs| == |ps|
    ensures forall i :: 0 <= i < |ps| ==> qs[i] == Unflagged(ps[i])
  {
    seq(|ps|, i requires 0 <= i < |ps| => Unflagged(ps[i]))
  }

  /** What a document means on disk: checked, without enabled flags inside profiles, in the format in
      which it is written. */
  function Canonical(d: Document): Document {
    var c := Checked(d);
    c.(profiles := UnflaggedAll(c.profiles),
       storageFormat := if ShouldSaveLegacy(c) then FORMAT_LEGACY else FORMAT_PROFILES)
  }

  /** Decoding an encoded legacy config gives the config back, if its defaults were filled in. */
  lemma LegacyConfigRoundTrip(c: Config)
    ensures LegacyConfig(EncodeLegacy(c)) == ConfigDefaults(c)
    ensures !IsProfilesFormat(EncodeLegacy(c))
  {
    hide IsBlank;
    assert IsBlank("") by {
      BlankNothing();
    }
  }

  lemma BlankNothing()
    ensures IsBlank("")
  {
  }

  lemma EffectiveHasDefaults(p: ProfileConfig, enabled: bool, s: ServerConfig)
    ensures ConfigDefaults(Effective(p, enabled, s)) == Effective(p, enabled, s)
  {
    hide IsBlank;
  }

  /** Saving succeeds exactly on valid documents. */
  lemma {:induction false} SaveSucceedsIff(d: Document)
    ensures SaveDocument(d).Some? <==> ValidDocument(d)
  {
    ValidDocumentIff(d);
    if ActiveProfile(Checked(d)).Some? {
      var p := ActiveProfile(Checked(d)).value;
      EffectiveHasDefaults(p.config, Checked(d).tunnelEnabled, Checked(d).server);
    }
    hide ValidDocument, ValidConfig, Checked, WellNamed, ConfigDefaults, ShouldSaveLegacy, EncodeLegacy, EncodeProfiles;
  }

  /** `e` holds the same things as the checked document `c`, flags and judgements aside. */
  ghost predicate SameContent(e: Document, c: Document) {
    && e.tunnelEnabled == c.tunnelEnabled
    && e.activeProfileID == c.activeProfileID
    && e.server == c.server
    && |e.profiles| == |c.profiles|
    && forall i :: 0 <= i < |c.profiles| ==>
         && e.profiles[i].id == c.profiles[i].id
         && e.profiles[i].name == c.profiles[i].name
         && e.profiles[i].config == Unflagged(c.profiles[i]).config
  }

  lemma {:induction false} CheckedProfileAgain(d: Document, e: Document, i: nat)
    requires SameContent(e, Checked(d)) && i < |d.profiles| == |e.profiles|
    ensures Checked(e).profiles[i] == Unflagged(Checked(d).profiles[i])
  {
    hide Checked, IsBlank, FirstWithID, ProfileReasons;
    CheckedShape(d);
    CheckedShape(e);
    assert CheckedProfile(d, i) && CheckedProfile(e, i);
    var p := d.profiles[i].config;
    var enabled := d.profiles[i].id == Checked(d).activeProfileID ==> d.tunnelEnabled;
    DefaultsIdempotent(p, d.server);
    ReasonsIgnoreDefaults(p, false, enabled);
    ReasonsIgnoreDefaults(ProfileDefaults(p), false, enabled);
    assert WithActiveID(e).activeProfileID == e.activeProfileID;
    assert e.profiles[i].config == ProfileDefaults(p).(tunnel := ProfileDefaults(p).tunnel.(enabled := false));
    DefaultsKeepFlag(ProfileDefaults(p));
    hide ProfileDefaults;
  }

  lemma DefaultsKeepFlag(p: ProfileConfig)
    requires ProfileDefaults(p) == p
    ensures ProfileDefaults(p.(tunnel := p.tunnel.(enabled := false))) == p.(tunnel := p.tunnel.(enabled := false))
  {
    hide IsBlank;
  }

  /** Checking again what a checked document holds only drops the flags. */
  lemma {:induction false} CheckedAgain(d: Document, e: Document)
    requires SameContent(e, Checked(d)) && !IsBlank(e.storageFormat)
    ensures Checked(e) == Checked(d).(profiles := UnflaggedAll(Checked(d).profiles), storageFormat := e.storageFormat)
  {
    CheckedShape(d);
    CheckedShape(e);
    DefaultsIdempotent(BLANK_CONFIG_PROFILE, d.server);
    forall i | 0 <= i < |d.profiles|
      ensures Checked(e).profiles[i] == Unflagged(Checked(d).profiles[i])
    {
      CheckedProfileAgain(d, e, i);
    }
    hide Checked, IsBlank, Unflagged, FirstWithID, ServerDefaults, CheckedProfile;
    assert WithActiveID(e).activeProfileID == e.activeProfileID;
    assert Checked(e).profiles == UnflaggedAll(Checked(d).profiles);
  }

  const BLANK_CONFIG_PROFILE: ProfileConfig := ProfilePart(BLANK_CONFIG)

  /** Two documents that hold the same things are valid together. */
  lemma {:induction false} ValidAgain(d: Document, e: Document)
    requires SameContent(e, Checked(d)) && !IsBlank(e.storageFormat)
    ensures ValidDocument(e) <==> ValidDocument(d)
  {
    CheckedAgain(d, e);
    SameReasons(Checked(d), Checked(e));
    hide Checked, CheckedReasons, SameContent, UnflaggedAll, Unflagged, IsBlank;
  }

  lemma NamingReasonsSame(ps: seq<Profile>, qs: seq<Profile>, index: nat)
    requires |ps| == |qs| && index < |ps|
    requires forall i :: 0 <= i < |ps| ==> ps[i].id == qs[i].id && ps[i].name == qs[i].name
    ensures NamingReasons(ps, index) == NamingReasons(qs, index)
  {
    hide FirstWithID, FirstWithName, IsBlank;
    FirstWithIDSame(ps, qs, ps[index].id);
    FirstWithNameSame(ps, qs, ps[index].name);
  }

  lemma {:induction false} SameNamingReasons(ps: seq<Profile>, qs: seq<Profile>, bound: nat)
    requires |ps| == |qs| && bound <= |ps|
    requires forall i :: 0 <= i < |ps| ==> ps[i].id == qs[i].id && ps[i].name == qs[i].name
    ensures AllNamingReasons(ps, bound) == AllNamingReasons(qs, bound)
  {
    hide NamingReasons;
    if bound > 0 {
      SameNamingReasons(ps, qs, bound - 1);
      NamingReasonsSame(ps, qs, bound - 1);
    }
  }

  lemma {:induction false} FirstWithNameSame(ps: seq<Profile>, qs: seq<Profile>, name: string)
    requires |ps| == |qs| && forall i :: 0 <= i < |ps| ==> ps[i].name == qs[i].name
    ensures FirstWithName(ps, name) == FirstWithName(qs, name)
  {
    if ps != [] && ps[0].name != name {
      FirstWithNameSame(ps[1..], qs[1..], name);
    }
  }

  lemma {:induction false} LastWithIDSame(ps: seq<Profile>, qs: seq<Profile>, id: string, bound: nat)
    requires |ps| == |qs| && bound <= |ps| && forall i :: 0 <= i < |ps| ==> ps[i].id == qs[i].id
    ensures LastWithID(ps, id, bound) == LastWithID(qs, id, bound)
  {
    if bound > 0 && ps[bound - 1].id != id {
      LastWithIDSame(ps, qs, id, bound - 1);
    }
  }

  lemma {:induction false} SameReasons(c: Document, e: Document)
    requires e == c.(profiles := UnflaggedAll(c.profiles), storageFormat := e.storageFormat)
    ensures CheckedReasons(e) == CheckedReasons(c)
  {
    SameNamingReasons(c.profiles, e.profiles, |c.profiles|);
    LastWithIDSame(c.profiles, e.profiles, c.activeProfileID, |c.profiles|);
    hide AllNamingReasons, LastWithID, IsBlank, ServerReasons;
  }
}
