/** What is saved can be loaded again, in both formats, and what updates leave alone. */
module RoundTrips {
  import opened Options
  import opened Text
  import opened Config
  import opened ConfigLaws
  import opened Lenses
  import opened Storage

  lemma FormatNamesNotBlank()
    ensures !IsBlank(FORMAT_LEGACY) && !IsBlank(FORMAT_PROFILES) && !IsBlank(DEFAULT_PROFILE_ID)
  {
    assert !IsSpace(FORMAT_LEGACY[0]) && !IsSpace(FORMAT_PROFILES[0]) && !IsSpace(DEFAULT_PROFILE_ID[0]);
  }

  // ---------------------------------------------------------------- the profiles format

  lemma ReloadedContent(d: Document)
    ensures SameContent(LoadedDocument(EncodeProfiles(Checked(d))), Checked(d))
    ensures LoadedDocument(EncodeProfiles(Checked(d))).storageFormat == FORMAT_PROFILES
  {
    CheckedShape(d);
    hide Checked, IsBlank, FirstWithID, ProfileReasons, ProfileDefaults;
  }

  lemma {:induction false} ProfilesRoundTrip(d: Document)
    requires ValidDocument(d) && !ShouldSaveLegacy(Checked(d))
    ensures ParseDocument(EncodeProfiles(Checked(d))) == Some(Canonical(d))
  {
    var e := LoadedDocument(EncodeProfiles(Checked(d)));
    ReloadedContent(d);
    FormatNamesNotBlank();
    hide LoadedDocument, Checked, ShouldSaveLegacy, ValidDocument, SameContent, IsBlank, UnflaggedAll;
    CheckedAgain(d, e);
    ValidAgain(d, e);
  }

  // ---------------------------------------------------------------- the legacy format

  /** The one-profile document of a config, before it is judged. */
  function OneProfile(c: Config, format: string): Document {
    Document(format, c.tunnel.enabled, DEFAULT_PROFILE_ID,
      [Profile(DEFAULT_PROFILE_ID, DEFAULT_PROFILE_NAME, Stored(c), false, [])], c.server)
  }

  lemma DefaultsOfOneProfile(given: Config, format: string)
    requires !IsBlank(format)
    ensures DocumentFromConfig(given, format) == Checked(OneProfile(ConfigDefaults(given), format))
  {
    FormatNamesNotBlank();
    var c := ConfigDefaults(given);
    var e := OneProfile(c, format);
    DefaultsIdempotent(ProfilePart(given), given.server);
    assert ProfilePart(c) == ProfileDefaults(ProfilePart(given));
    DefaultsKeepFlag(ProfilePart(c));
    assert ServerDefaults(c.server) == c.server;
    hide ProfileDefaults, ServerDefaults, ConfigDefaults, IsBlank, Refreshed;
    assert DefaultAll(e.profiles) == e.profiles;
    assert DocumentDefaults(e) == e;
  }

  lemma StoredOfEffective(p: ProfileConfig, enabled: bool, s: ServerConfig)
    requires ProfileDefaults(p) == p && ServerDefaults(s) == s
    ensures Stored(Effective(p, enabled, s)) == p.(tunnel := p.tunnel.(enabled := false))
    ensures Effective(p, enabled, s).server == s && Effective(p, enabled, s).tunnel.enabled == enabled
  {
    hide IsBlank;
  }

  lemma LegacyContent(d: Document)
    requires ShouldSaveLegacy(Checked(d))
    ensures ActiveConfig(Checked(d)).Some?
    ensures SameContent(OneProfile(ActiveConfig(Checked(d)).value, FORMAT_LEGACY), Checked(d))
  {
    CheckedShape(d);
    var c := Checked(d);
    assert CheckedProfile(d, 0);
    DefaultsIdempotent(d.profiles[0].config, d.server);
    hide Checked, IsBlank, ProfileReasons, ProfileDefaults, ServerDefaults, Effective, Stored;
    StoredOfEffective(c.profiles[0].config, c.tunnelEnabled, c.server);
    assert FirstWithID(c.profiles, DEFAULT_PROFILE_ID) == 0;
  }

  lemma {:induction false} LegacyRoundTrip(d: Document)
    requires ShouldSaveLegacy(Checked(d))
    ensures ActiveConfig(Checked(d)).Some?
    ensures ParseDocument(EncodeLegacy(ConfigDefaults(ActiveConfig(Checked(d)).value))) == Some(Canonical(d))
  {
    LegacyContent(d);
    FormatNamesNotBlank();
    var c := ActiveConfig(Checked(d)).value;
    var p := ActiveProfile(Checked(d)).value;
    EffectiveHasDefaults(p.config, Checked(d).tunnelEnabled, Checked(d).server);
    assert ConfigDefaults(c) == c;
    hide ActiveConfig, Checked, ConfigDefaults, OneProfile, SameContent, IsBlank, UnflaggedAll;
    LegacyConfigRoundTrip(c);
    hide EncodeLegacy, LegacyConfig, IsProfilesFormat;
    DefaultsOfOneProfile(c, FORMAT_LEGACY);
    hide DocumentFromConfig;
    OneProfileFormat(c, FORMAT_LEGACY);
    CheckedAgain(d, OneProfile(c, FORMAT_LEGACY));
  }

  lemma OneProfileFormat(c: Config, format: string)
    ensures OneProfile(c, format).storageFormat == format
  {
  }

  /** Whatever SaveDocument writes is read back as the document itself, in canonical form: loading
      never fails on a saved file and loses nothing but flags that have no meaning. */
  lemma {:induction false} ParseAfterSave(d: Document)
    requires SaveDocument(d).Some?
    ensures ParseDocument(SaveDocument(d).value) == Some(Canonical(d))
  {
    SaveSucceedsIff(d);
    hide ValidDocument, Checked, ParseDocument, Canonical, EncodeLegacy, EncodeProfiles, ConfigDefaults, ActiveConfig,
         ValidConfig;
    if ShouldSaveLegacy(Checked(d)) {
      LegacyRoundTrip(d);
    } else {
      ProfilesRoundTrip(d);
    }
  }

  // ---------------------------------------------------------------- canonical documents

  /** No profile carries an enabled flag: how every document the API or the loader builds looks. */
  predicate NoFlags(d: Document) {
    forall i :: 0 <= i < |d.profiles| ==> !d.profiles[i].config.tunnel.enabled
  }

  /** Checking a flagless document twice is checking it once. */
  lemma CheckedTwice(e: Document)
    requires NoFlags(e) && !IsBlank(e.storageFormat)
    ensures Checked(Checked(e)) == Checked(e)
    ensures UnflaggedAll(Checked(e).profiles) == Checked(e).profiles
  {
    var c := Checked(e);
    CheckedShape(e);
    forall i | 0 <= i < |e.profiles|
      ensures Unflagged(c.profiles[i]) == c.profiles[i]
    {
      assert CheckedProfile(e, i);
      assert !c.profiles[i].config.tunnel.enabled;
    }
    hide Checked, Unflagged, IsBlank, ProfileReasons, ProfileDefaults, FirstWithID;
    assert UnflaggedAll(c.profiles) == c.profiles;
    assert SameContent(c, c);
    hide SameContent, UnflaggedAll;
    CheckedAgain(e, c);
  }

  lemma {:induction false} CanonicalOfChecked(e: Document)
    requires !IsBlank(e.storageFormat) && NoFlags(e)
    requires e.storageFormat == if ShouldSaveLegacy(Checked(e)) then FORMAT_LEGACY else FORMAT_PROFILES
    ensures Canonical(Checked(e)) == Checked(e)
  {
    CheckedTwice(e);
    CheckedShape(e);
    hide Checked, UnflaggedAll, IsBlank, ProfileReasons, ProfileDefaults, FirstWithID, ShouldSaveLegacy, CheckedProfile;
  }

  /** What the loader checks: no flags, and the format that fits. */
  ghost predicate Loadable(e: Document) {
    && NoFlags(e)
    && !IsBlank(e.storageFormat)
    && e.storageFormat == if ShouldSaveLegacy(Checked(e)) then FORMAT_LEGACY else FORMAT_PROFILES
  }

  lemma LoadedProfilesAreLoadable(raw: Raw)
    ensures Loadable(LoadedDocument(raw))
  {
    FormatNamesNotBlank();
    var e := LoadedDocument(raw);
    CheckedShape(e);
    hide Checked, IsBlank, ProfileDefaults, ProfileReasons, FirstWithID, WithActiveID;
  }

  lemma OneProfileIsLoadable(c: Config)
    ensures Loadable(OneProfile(c, FORMAT_LEGACY))
  {
    hide Checked, IsBlank, ProfileDefaults, ProfileReasons, FirstWithID;
    FormatNamesNotBlank();
    var e := OneProfile(c, FORMAT_LEGACY);
    CheckedShape(e);
    assert CheckedProfile(e, 0);
  }

  /** Every loaded document is the checked form of a flagless one in the fitting format. */
  lemma {:induction false} LoadedFrom(raw: Raw) returns (e: Document)
    requires ParseDocument(raw).Some?
    ensures ParseDocument(raw) == Some(Checked(e)) && Loadable(e)
  {
    hide Checked, LegacyConfig, ConfigDefaults, Loadable, ValidDocument, DocumentFromConfig, IsProfilesFormat,
         LoadedDocument, OneProfile;
    if IsProfilesFormat(raw) {
      e := LoadedDocument(raw);
      LoadedProfilesAreLoadable(raw);
    } else {
      e := OneProfile(ConfigDefaults(LegacyConfig(raw)), FORMAT_LEGACY);
      FormatNamesNotBlank();
      DefaultsOfOneProfile(LegacyConfig(raw), FORMAT_LEGACY);
      OneProfileIsLoadable(ConfigDefaults(LegacyConfig(raw)));
    }
  }

  /** A document that was loaded is already checked and in canonical form. */
  lemma {:induction false} LoadedIsCanonical(raw: Raw)
    requires ParseDocument(raw).Some?
    ensures Canonical(ParseDocument(raw).value) == ParseDocument(raw).value
    ensures Checked(ParseDocument(raw).value) == ParseDocument(raw).value
  {
    var e := LoadedFrom(raw);
    hide ParseDocument, Checked, Canonical, ShouldSaveLegacy, NoFlags, IsBlank;
    CanonicalOfChecked(e);
    CheckedTwice(e);
  }

  /** Canonical form is stable. */
  lemma {:induction false} CanonicalIdempotent(d: Document)
    ensures Canonical(Canonical(d)) == Canonical(d)
  {
    var e := Canonical(d);
    FormatNamesNotBlank();
    assert SameContent(e, Checked(d));
    hide Checked, SameContent, UnflaggedAll, IsBlank, Unflagged;
    CheckedAgain(d, e);
    assert Checked(e) == e;
    hide UnflaggedAll;
    CanonicalKeepsFormat(d);
    UnflaggedAllTwice(Checked(d).profiles);
  }

  lemma UnflaggedAllTwice(ps: seq<Profile>)
    ensures UnflaggedAll(UnflaggedAll(ps)) == UnflaggedAll(ps)
  {
  }

  lemma CanonicalKeepsFormat(d: Document)
    ensures ShouldSaveLegacy(Canonical(d)) <==> ShouldSaveLegacy(Checked(d))
  {
    hide Checked;
  }

  // ---------------------------------------------------------------- legacy updates

  lemma CheckedProfilesSame(d: Document, e: Document, i: nat)
    requires i < |d.profiles| == |e.profiles| && e.profiles[i] == d.profiles[i]
    requires WithActiveID(e).activeProfileID == WithActiveID(d).activeProfileID
    requires d.profiles[i].id != WithActiveID(d).activeProfileID
    ensures Checked(e).profiles[i] == Checked(d).profiles[i]
  {
    CheckedProfileShape(d, i);
    CheckedProfileShape(e, i);
    CheckedShape(d);
    CheckedShape(e);
    hide Checked, ProfileReasons, ProfileDefaults, IsBlank, FirstWithID, WithActiveID;
  }

  /** A legacy PUT rewrites the active profile and the shared settings only: the other profiles keep
      their content and their places, ids and names stay, and an omitted port or enabled flag keeps
      its value. The effective config becomes the one that was sent. */
  lemma {:induction false} LegacyUpdateFrame(raw: Raw, current: Document)
    requires Checked(current) == current
    requires ParseLegacyUpdate(raw, current).Some?
    ensures var d := ParseLegacyUpdate(raw, current).value;
            && d.activeProfileID == current.activeProfileID
            && d.storageFormat == current.storageFormat
            && |d.profiles| == |current.profiles|
            && (forall j :: 0 <= j < |d.profiles| ==>
                  d.profiles[j].id == current.profiles[j].id && d.profiles[j].name == current.profiles[j].name)
            && (forall j :: 0 <= j < |d.profiles| && j != ActiveIndex(current) ==> d.profiles[j] == current.profiles[j])
            && (raw.tunnel.enabled.None? ==> d.tunnelEnabled == current.tunnelEnabled)
            && (raw.server.port.None? ==> d.server.port == current.server.port)
            && ActiveConfig(d) == Some(ConfigDefaults(LegacyUpdate(raw, current)))
  {
    var c := LegacyUpdate(raw, current);
    var e := PutConfig(current, c).value;
    PutFrame(current, c);
    PutGet(current, c);
    UpdateKeepsOmitted(raw, current);
    CheckedShape(current);
    CheckedShape(e);
    ValidDocumentIff(e);
    ActiveConfigOfChecked(e);
    hide Checked, PutConfig, LegacyUpdate, ValidDocument, ConfigDefaults, ActiveConfig, ValidConfig, Stored, IsBlank,
         ProfileReasons, ProfileDefaults;
    assert WithActiveID(e) == e;
    var i := ActiveIndex(current);
    forall j | 0 <= j < |e.profiles|
      ensures Checked(e).profiles[j].id == current.profiles[j].id && Checked(e).profiles[j].name == current.profiles[j].name
      ensures j != i ==> Checked(e).profiles[j] == current.profiles[j]
    {
      assert CheckedProfile(e, j);
      if j != i {
        assert WellNamed(e.profiles);
        assert e.profiles[j].id != e.profiles[i].id;
        CheckedProfilesSame(current, e, j);
      }
    }
    hide WellNamed, CheckedProfile, FirstWithID;
  }

  lemma UpdateKeepsOmitted(raw: Raw, current: Document)
    requires Checked(current) == current
    ensures var c := LegacyUpdate(raw, current);
            && (raw.tunnel.enabled.None? ==> c.tunnel.enabled == current.tunnelEnabled)
            && (raw.server.port.None? ==> ServerDefaults(c.server).port == current.server.port)
  {
    CheckedShape(current);
    hide Checked, LegacyConfig, IsBlank;
  }
}
