/** The document in memory and the file on disk over whole runs: they never disagree, and storage
    moves from the legacy to the profiles format at most once. */
module Migration {
  import opened Options
  import opened Text
  import opened Config
  import opened ConfigLaws
  import opened Lenses
  import opened Storage
  import opened RoundTrips

  /** What the daemon remembers and what it has stored. */
  datatype Store = Store(document: Document, file: Raw)

  /** preserveDocumentStartupFields: a zero port is replaced by the current one. */
  function PreservePort(next: Document, current: Document): Document {
    if next.server.port == 0 then next.(server := next.server.(port := current.server.port)) else next
  }

  /** UpdateConfigDocument as far as document and file go. `committed` says that the data plane took
      the new config and the disk took the new file; otherwise everything is rolled back. */
  function Update(s: Store, proposed: Document, committed: bool): Store {
    var d := PreservePort(proposed, s.document);
    if !ValidDocument(d) then s
    else
      var c := Checked(d);
      match SaveDocument(c)
      case None => s
      case Some(raw) => if committed then Store(c, raw) else s
  }

  /** What a client of the daemon can ask for. Each request is served on the current document. */
  datatype Request =
    | SetEnabled(on: bool)      // up, down
    | Put(raw: Raw)             // PUT /api/config, either format
    | Reconcile                 // restart of the tunnel
    | Reload                    // restart of the daemon

  /** The document a request asks for; a malformed or invalid body asks for none. */
  function Proposal(d: Document, r: Request): Option<Document> {
    match r
    case SetEnabled(on) => Some(d.(tunnelEnabled := on))
    case Put(raw) => ParseUpdate(raw, Checked(d))
    case _ => None
  }

  function Serve(s: Store, r: Request, committed: bool): Store {
    if r.Reload? then
      match ParseDocument(s.file)
      case None => s
      case Some(d) => s.(document := d)
    else
      match Proposal(s.document, r)
      case None => s
      case Some(d) => Update(s, d, committed)
  }

  function ServeAll(s: Store, rs: seq<(Request, bool)>): Store
    decreases |rs|
  {
    if rs == [] then s else ServeAll(Serve(s, rs[0].0, rs[0].1), rs[1..])
  }

  /** Loading the file gives exactly the document in memory. */
  predicate InSync(s: Store) {
    ParseDocument(s.file) == Some(s.document)
  }

  /** A document in legacy format is the single default profile; otherwise it is in profiles format. */
  predicate FormatFits(d: Document) {
    d.storageFormat == if ShouldSaveLegacy(d) then FORMAT_LEGACY else FORMAT_PROFILES
  }

  lemma FormatFitsNotBlank(d: Document)
    requires FormatFits(d)
    ensures !IsBlank(d.storageFormat)
  {
    FormatNamesNotBlank();
  }

  /** Format and naming do not change when a document is checked. */
  lemma CheckedKeepsFormat(d: Document)
    requires FormatFits(d) && NoFlags(d) && !IsBlank(d.activeProfileID)
    ensures FormatFits(Checked(d)) && NoFlags(Checked(d)) && Checked(d).storageFormat == d.storageFormat
  {
    FormatFitsNotBlank(d);
    CheckedShape(d);
    forall i | 0 <= i < |d.profiles|
      ensures !Checked(d).profiles[i].config.tunnel.enabled
      ensures Checked(d).profiles[i].id == d.profiles[i].id && Checked(d).profiles[i].name == d.profiles[i].name
    {
      assert CheckedProfile(d, i);
    }
    hide Checked, IsBlank, ProfileReasons, FirstWithID;
  }

  /** What a synchronised store remembers is fit for every request. */
  lemma {:induction false} InSyncShape(s: Store)
    requires InSync(s)
    ensures FormatFits(s.document) && NoFlags(s.document) && !IsBlank(s.document.activeProfileID)
    ensures Checked(s.document) == s.document
  {
    var d := s.document;
    LoadedIsCanonical(s.file);
    CheckedShape(d);
    CanonicalKeepsFormat(d);
    hide ParseDocument, Checked, IsBlank, ProfileReasons, FirstWithID;
    var c := Checked(d);
    assert d.profiles == UnflaggedAll(c.profiles);
    assert FormatFits(d);
  }

  /** A committed update leaves memory and disk in agreement. */
  lemma {:induction false} UpdateKeepsSync(s: Store, proposed: Document, committed: bool)
    requires InSync(s)
    requires FormatFits(proposed) && NoFlags(proposed) && !IsBlank(proposed.activeProfileID)
    ensures InSync(Update(s, proposed, committed))
    ensures Update(s, proposed, committed) == s || Update(s, proposed, committed).document.storageFormat == proposed.storageFormat
  {
    var d := PreservePort(proposed, s.document);
    assert FormatFits(d) && NoFlags(d) && d.storageFormat == proposed.storageFormat;
    FormatFitsNotBlank(d);
    CheckedKeepsFormat(d);
    hide Checked, ValidDocument, SaveDocument, ParseDocument, PreservePort, ShouldSaveLegacy, NoFlags, IsBlank;
    if SaveDocument(Checked(d)).Some? {
      ParseAfterSave(Checked(d));
      CanonicalOfChecked(d);
    }
  }

  // ---------------------------------------------------------------- the requests

  lemma {:induction false} LoadedFits(raw: Raw)
    requires ParseDocument(raw).Some?
    ensures var d := ParseDocument(raw).value; FormatFits(d) && NoFlags(d) && !IsBlank(d.activeProfileID)
    ensures IsProfilesFormat(raw) ==> ParseDocument(raw).value.storageFormat == FORMAT_PROFILES
    ensures !IsProfilesFormat(raw) ==> ParseDocument(raw).value.storageFormat == FORMAT_LEGACY
  {
    InSyncShape(Store(ParseDocument(raw).value, raw));
    hide Checked, NoFlags, IsBlank, ShouldSaveLegacy, ValidDocument, LegacyConfig;
    if IsProfilesFormat(raw) {
      assert LoadedDocument(raw).storageFormat == FORMAT_PROFILES;
      FormatNamesNotBlank();
      CheckedShape(LoadedDocument(raw));
    }
  }

  /** A legacy update keeps the format and the naming of the current document. */
  lemma {:induction false} LegacyUpdateFits(raw: Raw, current: Document)
    requires FormatFits(current) && NoFlags(current) && !IsBlank(current.activeProfileID)
    requires ParseLegacyUpdate(raw, current).Some?
    ensures var d := ParseLegacyUpdate(raw, current).value;
            FormatFits(d) && NoFlags(d) && !IsBlank(d.activeProfileID) && d.storageFormat == current.storageFormat
  {
    var c := LegacyUpdate(raw, current);
    var e := PutConfig(current, c).value;
    PutFits(current, c);
    CheckedKeepsFormat(e);
    FormatFitsNotBlank(e);
    CheckedShape(e);
    hide LegacyUpdate, PutConfig, IsBlank, Checked, ValidDocument, FormatFits, NoFlags, FirstWithID;
  }

  lemma PutFits(current: Document, c: Config)
    requires FormatFits(current) && NoFlags(current) && PutConfig(current, c).Some?
    ensures var e := PutConfig(current, c).value;
            FormatFits(e) && NoFlags(e) && e.storageFormat == current.storageFormat && e.activeProfileID == current.activeProfileID
  {
    PutFrame(current, c);
    var e := PutConfig(current, c).value;
    hide PutConfig, FirstWithID;
    forall i | 0 <= i < |e.profiles|
      ensures !e.profiles[i].config.tunnel.enabled
      ensures e.profiles[i].id == current.profiles[i].id && e.profiles[i].name == current.profiles[i].name
    {
      assert i == ActiveIndex(current) || e.profiles[i] == current.profiles[i];
    }
  }

  predicate AsksForProfiles(r: Request) {
    r.Put? && IsProfilesFormat(r.raw)
  }

  /** Every proposed document is fit to be stored; it keeps the current format unless the request
      itself is in the profiles format. */
  lemma {:induction false} ProposalFits(s: Store, r: Request)
    requires InSync(s) && Proposal(s.document, r).Some?
    ensures var d := Proposal(s.document, r).value;
            && FormatFits(d) && NoFlags(d) && !IsBlank(d.activeProfileID)
            && d.storageFormat == if AsksForProfiles(r) then FORMAT_PROFILES else s.document.storageFormat
  {
    InSyncShape(s);
    if r.Put? {
      hide InSync, Checked, FormatFits, NoFlags, IsBlank, ParseProfiles, ParseLegacyUpdate, IsProfilesFormat;
      if IsProfilesFormat(r.raw) {
        LoadedFits(r.raw);
      } else {
        LegacyUpdateFits(r.raw, s.document);
      }
    }
  }

  /** Serving a request, whether it is committed or rolled back, keeps memory and disk in sync; only a
      document in the profiles format can take a legacy store out of the legacy format, and nothing
      takes it back. */
  lemma {:induction false} ServeKeepsSync(s: Store, r: Request, committed: bool)
    requires InSync(s)
    ensures InSync(Serve(s, r, committed))
    ensures Serve(s, r, committed).document.storageFormat == s.document.storageFormat
         || (AsksForProfiles(r) && Serve(s, r, committed).document.storageFormat == FORMAT_PROFILES)
  {
    if !r.Reload? && Proposal(s.document, r).Some? {
      ProposalFits(s, r);
      hide InSync, Update, Proposal, FormatFits, NoFlags, IsBlank, AsksForProfiles;
      UpdateKeepsSync(s, Proposal(s.document, r).value, committed);
    }
  }

  /** Over every run of requests and daemon restarts, whatever fails in between, loading the stored
      file would give exactly the document in memory. */
  lemma {:induction false} AlwaysInSync(s: Store, rs: seq<(Request, bool)>)
    requires InSync(s)
    ensures InSync(ServeAll(s, rs))
    decreases |rs|
  {
    hide InSync, Serve;
    if rs != [] {
      ServeKeepsSync(s, rs[0].0, rs[0].1);
      AlwaysInSync(Serve(s, rs[0].0, rs[0].1), rs[1..]);
    }
  }

  /** Migration goes one way: a store in the profiles format never returns to the legacy format, and
      without a PUT in the profiles format a legacy store stays what it is. */
  lemma {:induction false} MigrationIsOneWay(s: Store, rs: seq<(Request, bool)>)
    requires InSync(s)
    ensures s.document.storageFormat == FORMAT_PROFILES ==> ServeAll(s, rs).document.storageFormat == FORMAT_PROFILES
    ensures (forall i :: 0 <= i < |rs| ==> !AsksForProfiles(rs[i].0))
            ==> ServeAll(s, rs).document.storageFormat == s.document.storageFormat
    decreases |rs|
  {
    hide InSync, Serve, AsksForProfiles;
    if rs != [] {
      ServeKeepsSync(s, rs[0].0, rs[0].1);
      MigrationIsOneWay(Serve(s, rs[0].0, rs[0].1), rs[1..]);
    }
  }

  /** On every run a document in legacy format is the single default profile, so it is always saved
      as a legacy file, and the file has the profiles format exactly when the document has. */
  lemma {:induction false} FormatOnDisk(s: Store, rs: seq<(Request, bool)>)
    requires InSync(s)
    ensures var t := ServeAll(s, rs);
            && (t.document.storageFormat == FORMAT_LEGACY <==> ShouldSaveLegacy(t.document))
            && (t.document.storageFormat == FORMAT_PROFILES <==> IsProfilesFormat(t.file))
            && (t.document.storageFormat == FORMAT_LEGACY || t.document.storageFormat == FORMAT_PROFILES)
  {
    AlwaysInSync(s, rs);
    var t := ServeAll(s, rs);
    LoadedFits(t.file);
    hide ServeAll, ParseDocument, IsProfilesFormat, NoFlags, IsBlank;
    assert FORMAT_LEGACY != FORMAT_PROFILES;
  }

  lemma {:induction false} UpdateKeepsValid(s: Store, proposed: Document, committed: bool)
    requires InSync(s) && ValidDocument(s.document)
    requires FormatFits(proposed) && NoFlags(proposed) && !IsBlank(proposed.activeProfileID)
    ensures ValidDocument(Update(s, proposed, committed).document)
  {
    var d := PreservePort(proposed, s.document);
    assert FormatFits(d) && NoFlags(d);
    FormatFitsNotBlank(d);
    hide Checked, ValidDocument, SaveDocument, InSync, PreservePort, ShouldSaveLegacy, NoFlags, IsBlank;
    CheckedTwice(d);
    assert ValidDocument(Checked(d)) <==> ValidDocument(d) by {
      ValidOfChecked(d);
    }
  }

  lemma ValidOfChecked(d: Document)
    requires Checked(Checked(d)) == Checked(d)
    ensures ValidDocument(Checked(d)) <==> ValidDocument(d)
  {
    hide Checked, CheckedReasons;
  }

  lemma {:induction false} ServeKeepsValid(s: Store, r: Request, committed: bool)
    requires InSync(s) && ValidDocument(s.document)
    ensures ValidDocument(Serve(s, r, committed).document)
  {
    if !r.Reload? && Proposal(s.document, r).Some? {
      ProposalFits(s, r);
      hide InSync, Update, Proposal, FormatFits, NoFlags, IsBlank, ValidDocument;
      UpdateKeepsValid(s, Proposal(s.document, r).value, committed);
    }
  }

  /** A valid document in memory stays valid on every run. */
  lemma {:induction false} ValidStaysValid(s: Store, rs: seq<(Request, bool)>)
    requires InSync(s) && ValidDocument(s.document)
    ensures ValidDocument(ServeAll(s, rs).document)
    decreases |rs|
  {
    hide InSync, Serve, ValidDocument;
    if rs != [] {
      ServeKeepsSync(s, rs[0].0, rs[0].1);
      ServeKeepsValid(s, rs[0].0, rs[0].1);
      ValidStaysValid(Serve(s, rs[0].0, rs[0].1), rs[1..]);
    }
  }

  /** The store of a first start without a config file. */
  function FreshStore(): Store {
    Store(DocumentFromConfig(BLANK_CONFIG, FORMAT_LEGACY), EncodeLegacy(ConfigDefaults(BLANK_CONFIG)))
  }

  lemma FreshStoreInSync()
    ensures InSync(FreshStore())
  {
    var c := BLANK_CONFIG;
    LegacyConfigRoundTrip(ConfigDefaults(c));
    BlankDefaults();
    hide LegacyConfig, EncodeLegacy, IsProfilesFormat, DocumentFromConfig, ConfigDefaults;
  }

  lemma BlankDefaults()
    ensures ConfigDefaults(BLANK_CONFIG) == BLANK_CONFIG
  {
    assert !IsSpace(BROKER_CUSTOM[0]) && !IsSpace(DEFAULT_LAN_MODE[0]) && !IsSpace(DEFAULT_WAN_INTERFACE[0]);
  }

  /** The defaults pass validation, so a first start can write them. */
  lemma BlankIsValid()
    ensures ValidConfig(BLANK_CONFIG) && ConfigDefaults(BLANK_CONFIG) == BLANK_CONFIG
  {
    hide ValidConfig, IsSpace, IsBlank, IsIPv6Address, ProfileDefaults, ConfigDefaults;
    BlankDefaults();
    BlankParts();
    ValidConfigIff(BLANK_CONFIG);
  }

  lemma BlankParts()
    ensures ProfileDefaults(ProfilePart(BLANK_CONFIG)) == ProfilePart(BLANK_CONFIG)
    ensures GoodServer(BLANK_CONFIG.server) && IsIPv6Address(DEFAULT_HEALTH_TARGET)
  {
    BlankDefaults();
    assert !IsSpace(DEFAULT_WAN_INTERFACE[0]);
    hide IsSpace;
  }
}
