/** The control service as the object it is: each lock-protected section updates its fields step by
    step, and is proved against the specification in module Daemon. */
module Service {
  import opened Options
  import opened Addresses
  import opened Kernel
  import opened Text
  import opened Config
  import opened ConfigLaws
  import opened Storage
  import opened Backend
  import opened Advertising
  import opened Records
  import opened Machine
  import opened Daemon
  import opened StateDocument
  import Migration
  import RoundTrips
  import Values = Config
  import Spec = Daemon
  import BackendSpec = Backend

  // ---------------------------------------------------------------- what is to be advertised

  method ParseNetworks(networks: seq<NetworkConfig>) returns (r: Attempt<seq<AdvertisedNetwork>>)
    ensures r == AdvertisedNetworks(networks)
  {
    var entries: seq<AdvertisedNetwork> := [];
    assert networks[0..] == networks;
    PrependedNothing([], AdvertisedNetworks(networks));
    for i := 0 to |networks|
      invariant AdvertisedNetworks(networks) == Prepended(entries, AdvertisedNetworks(networks[i..]))
    {
      assert networks[i..][0] == networks[i] && networks[i..][1..] == networks[i + 1..];
      var prefix := networks[i].prefix.Parse();
      if prefix.None? {
        return Bad(RAPrefixUnparsable(networks[i].prefix));
      }
      var entry := AdvertisedNetwork(networks[i].iface, prefix.value);
      assert AdvertisedNetworks(networks[i..]) == Prepended([entry], AdvertisedNetworks(networks[i + 1..]));
      hide AdvertisedNetworks, Prepended;
      PrependedOne(entries, entry, AdvertisedNetworks(networks[i + 1..]));
      entries := entries + [entry];
    }
    assert networks[|networks|..] == [];
    PrependedNothing(entries, Good([]));
    return Good(entries);
  }

  function Prepended<T>(front: seq<T>, rest: Attempt<seq<T>>): Attempt<seq<T>> {
    if rest.Good? then Good(front + rest.value) else rest
  }

  lemma PrependedNothing<T>(front: seq<T>, rest: Attempt<seq<T>>)
    ensures Prepended([], rest) == rest
    ensures Prepended(front, Good([])) == Good(front)
  {
    if rest.Good? {
      assert [] + rest.value == rest.value;
    }
    assert front + [] == front;
  }

  lemma PrependedOne<T>(front: seq<T>, x: T, rest: Attempt<seq<T>>)
    ensures Prepended(front, Prepended([x], rest)) == Prepended(front + [x], rest)
  {
    if rest.Good? {
      assert front + ([x] + rest.value) == front + [x] + rest.value;
    }
  }

  method ResolveRADNSServers(c: Config) returns (r: Attempt<seq<Option<Address>>>)
    ensures r == Resolvers(c)
  {
    hide RouterDNS;
    if |c.lan.dns| == 0 {
      r := DeriveRouterDNSServers(c.lan.networks);
      return;
    }
    var dns := c.lan.dns;
    var servers: seq<Option<Address>> := [];
    assert dns[0..] == dns;
    PrependedNothing([], ParseResolvers(dns));
    for i := 0 to |dns|
      invariant ParseResolvers(dns) == Prepended(servers, ParseResolvers(dns[i..]))
    {
      assert dns[i..][0] == dns[i] && dns[i..][1..] == dns[i + 1..];
      var server := dns[i].Parse();
      if server.None? {
        return Bad(RADNSUnparsable(dns[i]));
      }
      assert ParseResolvers(dns[i..]) == Prepended([server], ParseResolvers(dns[i + 1..]));
      hide ParseResolvers, Prepended;
      PrependedOne(servers, server, ParseResolvers(dns[i + 1..]));
      servers := servers + [server];
    }
    assert dns[|dns|..] == [];
    PrependedNothing(servers, Good([]));
    return Good(servers);
  }

  // ---------------------------------------------------------------- the service

  class Service {
    var document: DocumentRecord
    var config: ConfigRecord
    var state: StateRecord
    var advertiser: Option<Advertiser>
    var configFile: Raw
    var stateFile: State
    const backend: SystemBackend
    ghost var stuck: set<Item>
    ghost var dropped: set<Item>

    ghost function Value(): Daemon
      reads this, document, document.profiles, config, config.lan.dns, config.lan.networks, state, backend.runner
    {
      Daemon(document.Value(), config.Value(), state.doc, advertiser, configFile, stateFile, backend.runner.world, stuck, dropped)
    }

    constructor (backend: SystemBackend, ghost d: Daemon, document: Document, config: Config, configFile: Raw, stateFile: State)
      requires d == Daemon(document, config, stateFile, None, configFile, stateFile, backend.runner.world, d.stuck, d.dropped)
      ensures Value() == d && this.backend == backend
      ensures fresh(this.document) && fresh(this.document.profiles) && fresh(this.config) && fresh(state)
    {
      this.backend := backend;
      this.document := new DocumentRecord(document);
      this.config := new ConfigRecord(config);
      this.state := new StateRecord(stateFile);
      this.advertiser := None;
      this.configFile := configFile;
      this.stateFile := stateFile;
      stuck := d.stuck;
      dropped := d.dropped;
    }

    /** Start, the health loop apart. */
    method Start() returns (err: Option<Fault>)
      modifies this`advertiser, this`stateFile, this`stuck, this`dropped, state, backend.runner
      ensures Result(Value(), err) == Spec.ReconcileLocked(old(Value()))
    {
      hide Spec.ReconcileLocked;
      err := ReconcileLocked();
    }

    /** Stop: the data plane is left as it is. */
    method Stop()
      modifies this`advertiser
      ensures Value() == old(Value()).(advertiser := None)
    {
      StopAdvertiser();
    }

    // ---------------------------------------------------------------- disk and advertiser

    /** Something that takes an instant and may fail: a disk write, the start of the advertiser. */
    method Instant() returns (ok: bool)
      modifies backend.runner
      ensures backend.runner.world == Wait(old(backend.runner.world)) && ok == !Fails(old(backend.runner.world))
    {
      ok := !Fails(backend.runner.world);
      backend.runner.world := Wait(backend.runner.world);
    }

    method SaveState() returns (err: Option<Fault>)
      modifies this`stateFile, backend.runner
      ensures Result(Value(), err) == Spec.SaveState(old(Value()))
    {
      var ok := Instant();
      if !ok {
        return Some(StateNotSaved);
      }
      stateFile := state.doc;
      return None;
    }

    method StopAdvertiser()
      modifies this`advertiser
      ensures advertiser == None
    {
      advertiser := None;
    }

    method StartAdvertiser(cfg: ConfigRecord) returns (err: Option<AdvertiserFailure>)
      requires advertiser.None?
      modifies this`advertiser, backend.runner
      ensures Started(backend.runner.world, advertiser, err) == Spec.StartAdvertiser(old(backend.runner.world), cfg.Value())
    {
      hide AdvertisedNetworks, Resolvers;
      var networks := ParseNetworks(cfg.lan.networks[..]);
      if networks.Bad? {
        return Some(networks.failure);
      }
      var dns := ResolveRADNSServers(cfg.Value());
      if dns.Bad? {
        return Some(dns.failure);
      }
      var ok := Instant();
      if !ok {
        return Some(StartFailed);
      }
      advertiser := Some(Advertiser(networks.value, dns.value, cfg.tunnel.mtu));
      return None;
    }

    // ---------------------------------------------------------------- reconcile

    ghost method Prune()
      modifies this`stuck, this`dropped
      ensures Value() == Pruned(old(Value()))
    {
      var p := Pruned(Value());
      stuck, dropped := p.stuck, p.dropped;
    }

    /** The data plane's part of a reconcile; the config comes back with its MTU resolved. */
    method RunDataPlane(cfg: ConfigRecord, valid: bool, applied: AppliedState) returns (p: Pass)
      modifies this`advertiser, backend.runner, cfg
      ensures p == RunPass(old(backend.runner.world), old(cfg.Value()), valid, applied)
      ensures backend.runner.world == p.world && advertiser == p.advertiser
    {
      hide BackendSpec.Reconcile, Spec.StartAdvertiser, BackendSpec.Observe, BackendSpec.Probe;
      StopAdvertiser();
      var backendErr := backend.Reconcile(cfg, valid, applied);
      var advertiserErr: Option<AdvertiserFailure> := None;
      if backendErr.None? && valid && cfg.tunnel.enabled && cfg.lan.enabled && cfg.lan.networks.Length > 0 {
        advertiserErr := StartAdvertiser(cfg);
      }
      var observation, observeErr :=
        backend.Observe(cfg.server.wanInterface, if valid && cfg.tunnel.enabled then cfg else null);
      var probe := ProbeResult(false, 0);
      if valid && cfg.tunnel.enabled && cfg.health.enabled && cfg.health.target != NoAddress("") {
        probe := backend.Probe();
      }
      p := Pass(backend.runner.world, cfg.Value(), advertiser, backendErr, advertiserErr, observeErr, observation, probe);
    }

    /** reconcileLocked. It works on a copy of the config, so that the MTU resolved for this run does not
        replace what the user asked for. */
    method ReconcileLocked() returns (err: Option<Fault>)
      modifies this`advertiser, this`stateFile, this`stuck, this`dropped, state, backend.runner
      ensures Result(Value(), err) == Spec.ReconcileLocked(old(Value()))
    {
      hide RunPass, StateAfter, ConfigReasons, StuckItems, Lost, ActiveName, ActiveBroker, PassFault;
      ghost var before := Value();
      var cfg := config.Clone();
      var reasons := cfg.Validate();
      var previousApplied := state.doc.applied;
      state.BeginReconcile(document, |reasons| == 0);
      stuck := stuck + StuckItems(backend.runner.world, previousApplied);
      var p := RunDataPlane(cfg, |reasons| == 0, previousApplied);
      SameAfter(state.doc, before.state, before.document, reasons, p);
      state.EndReconcile(document.Value(), reasons, p);
      Prune();
      assert Value() == AfterPass(before, p);
      hide AfterPass;
      err := SaveState();
      if err.None? {
        err := PassFault(reasons, p);
      }
    }

    // ---------------------------------------------------------------- updates

    /** Puts copies of an earlier document, config and state in place. */
    method Restore(previousDocument: DocumentRecord, previousConfig: ConfigRecord, previousState: StateRecord, ghost prior: Daemon)
      requires previousDocument.Value() == prior.document && previousConfig.Value() == prior.config && previousState.doc == prior.state
      modifies this`document, this`config, this`state
      ensures Value() == Restored(old(Value()), prior)
      ensures fresh(document) && fresh(document.profiles) && fresh(config) && fresh(state)
    {
      document := previousDocument.Clone();
      config := previousConfig.Clone();
      state := previousState.Clone();
    }

    /** rollbackConfigUpdateLocked: restore, reconcile, and restore once more if that fails. */
    method RollbackConfigUpdateLocked(previousDocument: DocumentRecord, previousConfig: ConfigRecord, previousState: StateRecord,
                                      ghost prior: Daemon)
      requires previousDocument.Value() == prior.document && previousConfig.Value() == prior.config && previousState.doc == prior.state
      modifies this, backend.runner
      ensures Value() == Spec.Rollback(old(Value()), prior)
      ensures fresh(document) && fresh(document.profiles) && fresh(config) && fresh(state)
    {
      hide Spec.ReconcileLocked, Spec.SaveState, Restored, Pruned, Recorded;
      ghost var recorded := Recorded(Value());
      Restore(previousDocument, previousConfig, previousState, prior);
      dropped := dropped + recorded;
      Prune();
      assert Value() == RolledBack(old(Value()), prior);
      var rollbackErr := ReconcileLocked();
      if rollbackErr.Some? {
        Restore(previousDocument, previousConfig, previousState, prior);
        var saveErr := SaveState();
      }
    }

    /** What goes into the config file: a checked copy of the document, in the format it calls for; nothing
        if it does not pass. */
    method EncodeConfigDocument() returns (raw: Option<Raw>, reasons: seq<Reason>)
      ensures raw == SaveDocument(document.Value()) && reasons == DocumentReasons(document.Value())
    {
      hide Checked, DocumentReasons, Values.ActiveConfig, EncodeLegacy, EncodeProfiles, ConfigReasons, ConfigDefaults,
           DocumentDefaults;
      DefaultsThenCheck(document.Value());
      var clone := document.Clone();
      clone.ApplyDefaults();
      reasons := clone.ValidationReasons();
      if |reasons| > 0 {
        return None, reasons;
      }
      if !ShouldSaveLegacy(clone.Value()) {
        return Some(EncodeProfiles(clone.Value())), reasons;
      }
      var cfg := clone.ActiveConfig();
      if cfg == null {
        return None, reasons;
      }
      var copy := cfg.Clone();
      copy.ApplyDefaults();
      var configReasons := copy.Validate();
      if |configReasons| > 0 {
        return None, reasons;
      }
      return Some(EncodeLegacy(copy.Value())), reasons;
    }

    /** SaveDocument: checks once more, then replaces the file or leaves it. */
    method SaveConfigDocument() returns (err: Option<Fault>)
      modifies this`configFile, backend.runner
      ensures Result(Value(), err) == SaveConfigFile(old(Value()))
    {
      hide SaveDocument, DocumentReasons;
      var raw, reasons := EncodeConfigDocument();
      if raw.None? {
        return Some(ConfigInvalid(reasons));
      }
      var ok := Instant();
      if !ok {
        return Some(ConfigNotSaved);
      }
      configFile := raw.value;
      return None;
    }

    /** The service's own copy of a proposed document, defaults filled in and judged. */
    method Prepare(proposed: DocumentRecord) returns (updated: DocumentRecord, reasons: seq<Reason>)
      ensures fresh(updated) && fresh(updated.profiles)
      ensures var next := Migration.PreservePort(proposed.Value(), document.Value());
              updated.Value() == Checked(next) && reasons == DocumentReasons(next)
    {
      hide Checked, DocumentReasons;
      updated := proposed.Clone();
      if updated.server.port == 0 {
        updated.server := updated.server.(port := document.server.port);
      }
      assert updated.Value() == Migration.PreservePort(proposed.Value(), document.Value());
      reasons := updated.ValidationReasons();
    }

    /** Adopts a document and its config, and makes data plane and disk follow. */
    method Adopt(updated: DocumentRecord, updatedConfig: ConfigRecord) returns (err: Option<Fault>)
      requires updated.profiles != document.profiles
      modifies this`document, this`config, this`advertiser, this`stateFile, this`configFile, this`stuck, this`dropped, state, backend.runner
      ensures document == updated && config == updatedConfig && state == old(state)
      ensures var r := Spec.ReconcileLocked(Spec.Adopt(old(Value()), updated.Value(), updatedConfig.Value()));
              Result(Value(), err) == if r.err.Some? then r else SaveConfigFile(r.daemon)
    {
      hide Spec.ReconcileLocked, SaveConfigFile;
      document := updated;
      config := updatedConfig;
      err := ReconcileLocked();
      if err.None? {
        err := SaveConfigDocument();
      }
    }

    /** UpdateConfigDocument. The caller's document is copied first and shares nothing with the service
        afterwards. */
    method UpdateConfigDocument(proposed: DocumentRecord) returns (err: Option<Fault>)
      modifies this, state, backend.runner
      ensures Result(Value(), err) == Spec.UpdateConfigDocument(old(Value()), old(proposed.Value()))
      ensures document == old(document) || (fresh(document) && fresh(document.profiles))
      ensures config == old(config) || fresh(config)
      ensures state == old(state) || fresh(state)
    {
      hide Spec.ReconcileLocked, Spec.Rollback, SaveConfigFile, Checked, DocumentReasons, Values.ActiveConfig,
           Spec.Adopt;
      ghost var before := Value();
      var currentDocument := document.Clone();
      var currentConfig := config.Clone();
      var currentState := state.Clone();
      var updated, reasons := Prepare(proposed);
      if |reasons| > 0 {
        return Some(ConfigInvalid(reasons));
      }
      var updatedConfig := updated.ActiveConfig();
      if updatedConfig == null {
        return Some(NoActiveProfile(updated.activeProfileID));
      }
      err := Adopt(updated, updatedConfig);
      if err.Some? {
        RollbackConfigUpdateLocked(currentDocument, currentConfig, currentState, before);
      }
    }

    /** UpdateConfig, nothing coming between its two sections. */
    method UpdateConfig(cfg: ConfigRecord) returns (err: Option<Fault>)
      modifies this, state, backend.runner
      ensures Result(Value(), err) == Spec.UpdateConfig(old(Value()), old(cfg.Value()))
      ensures document == old(document) || (fresh(document) && fresh(document.profiles))
    {
      hide Spec.UpdateConfigDocument, Values.ReplaceActive;
      var next := document.Clone();
      next.tunnelEnabled := cfg.tunnel.enabled;
      next.server := cfg.server;
      var found := next.ReplaceActive(cfg.Value());
      if !found {
        return Some(NoActiveProfile(document.activeProfileID));
      }
      err := UpdateConfigDocument(next);
    }

    /** Up and Down, nothing coming between their two sections. */
    method SetEnabled(on: bool) returns (err: Option<Fault>)
      modifies this, state, backend.runner
      ensures Result(Value(), err) == Spec.SetEnabled(old(Value()), on)
    {
      hide Spec.UpdateConfigDocument;
      var next := document.Clone();
      next.tunnelEnabled := on;
      err := UpdateConfigDocument(next);
    }

    // ---------------------------------------------------------------- health

    method ShouldRetryReconcile() returns (retry: bool)
      ensures retry == ShouldRetry(Value())
    {
      hide ConfigReasons;
      if !document.tunnelEnabled {
        return false;
      }
      if state.doc.phase == Ready {
        return false;
      }
      var reasons := config.Validate();
      return |reasons| == 0;
    }

    /** What a health check does outside the lock, with its own copy of the config. */
    method LookAround(cfg: ConfigRecord) returns (sight: Sight)
      modifies backend.runner
      ensures Seen(backend.runner.world, sight) == Look(old(backend.runner.world), cfg.Value())
    {
      hide ConfigReasons, BackendSpec.Observe, BackendSpec.Probe;
      var reasons := cfg.Validate();
      var observation, observeErr :=
        backend.Observe(cfg.server.wanInterface, if |reasons| == 0 && cfg.tunnel.enabled then cfg else null);
      var result := ProbeResult(false, 0);
      if cfg.health.enabled && cfg.health.target != NoAddress("") {
        result := backend.Probe();
      }
      sight := Sight(cfg.Value(), observation, observeErr, result);
    }

    /** The second locked section of a health check. */
    method WriteBack(sight: Sight) returns (err: Option<Fault>)
      modifies this`stateFile, state, backend.runner
      ensures Result(Value(), err) == Spec.WriteBack(old(Value()), sight)
    {
      hide StateAfterSight, Spec.SaveState;
      state.Record(sight);
      err := SaveState();
    }

    /** repairManagedAddresses. */
    method RepairManagedAddresses() returns (err: Option<Fault>)
      modifies this`stateFile, this`stuck, this`dropped, state, backend.runner
      ensures Result(Value(), err) == Spec.Repair(old(Value()))
    {
      hide StateAfterRepair, Spec.SaveState, Lost, BackendSpec.RepairAddresses, BackendSpec.Observe, ConfigReasons;
      var cfg := config.Clone();
      var reasons := cfg.Validate();
      if |reasons| > 0 || !cfg.tunnel.enabled {
        return None;
      }
      var repairErr := backend.RepairAddresses(cfg);
      var observation, observeErr := backend.Observe(cfg.server.wanInterface, cfg);
      state.RecordRepair(repairErr, observation, observeErr, backend.runner.world);
      Prune();
      err := SaveState();
      if err.None? {
        err := if repairErr.Some? then OfBackend(repairErr) else OfBackend(observeErr);
      }
    }

    /** What a health check that may restart things does after its second section. */
    method RecoverFrom(sight: Sight) returns (err: Option<Fault>)
      modifies this`advertiser, this`stateFile, this`stuck, this`dropped, state, backend.runner
      ensures Result(Value(), err) == Recover(old(Value()), sight)
    {
      hide Spec.ReconcileLocked, Spec.Repair, ValidConfig;
      var shouldRecoverFailedProbe := sight.config.health.enabled && !sight.probe.pingOk;
      var shouldRecoverMissingAddress := |sight.observation.missing| > 0;
      if !(sight.config.health.autoRestart && sight.config.tunnel.enabled && ValidConfig(sight.config)) {
        return None;
      }
      if shouldRecoverFailedProbe {
        err := ReconcileLocked();
        return;
      }
      if shouldRecoverMissingAddress {
        err := RepairManagedAddresses();
        if err.Some? {
          err := ReconcileLocked();
        }
        return;
      }
      return None;
    }

    /** runHealthCheck, nothing coming between its sections. */
    method RunHealthCheck(mayRestart: bool) returns (err: Option<Fault>)
      modifies this`advertiser, this`stateFile, this`stuck, this`dropped, state, backend.runner
      ensures Result(Value(), err) == HealthCheck(old(Value()), mayRestart)
    {
      hide Look, Spec.WriteBack, Recover;
      var cfg := config.Clone();
      var sight := LookAround(cfg);
      err := WriteBack(sight);
      if err.Some? || !mayRestart {
        return;
      }
      err := RecoverFrom(sight);
    }

    /** One turn of the health loop. */
    method HealthLoopTurn()
      modifies this`advertiser, this`stateFile, this`stuck, this`dropped, state, backend.runner
      ensures Value() == Tick(old(Value()))
    {
      hide Spec.ReconcileLocked, HealthCheck, ShouldRetry;
      var retry := ShouldRetryReconcile();
      if retry {
        var reconcileErr := ReconcileLocked();
      } else {
        var healthErr := RunHealthCheck(true);
      }
    }

    // ---------------------------------------------------------------- what callers get

    /** GetConfig hands out a copy. */
    method GetConfig() returns (copy: ConfigRecord)
      ensures fresh(copy) && fresh(copy.lan.dns) && fresh(copy.lan.networks) && copy.Value() == config.Value()
    {
      copy := config.Clone();
    }

    /** GetConfigDocument hands out a copy, checked; checking it leaves the service's own alone. */
    method GetConfigDocument() returns (copy: DocumentRecord)
      ensures fresh(copy) && fresh(copy.profiles) && copy.Value() == Checked(document.Value())
    {
      hide Checked, DocumentReasons;
      copy := document.Clone();
      var reasons := copy.ValidationReasons();
    }

    /** Status hands out a copy. */
    method Status() returns (copy: StateRecord)
      ensures fresh(copy) && copy.doc == state.doc
    {
      copy := state.Clone();
    }
  }

  // ---------------------------------------------------------------- loading

  /** NewService with a stored config: no service if the file does not load. */
  method LoadService(backend: SystemBackend, configFile: Raw, stateFile: State, ghost stuck: set<Item>, ghost dropped: set<Item>)
    returns (service: Service?)
    ensures service != null ==> fresh(service) && service.backend == backend
    ensures (if service == null then None else Some(service.Value()))
         == Spec.Load(configFile, stateFile, backend.runner.world, stuck, dropped)
  {
    hide ParseDocument, Values.ActiveConfig, Lost;
    var parsed := ParseDocument(configFile);
    if parsed.None? {
      return null;
    }
    var document := new DocumentRecord(parsed.value);
    var config := document.ActiveConfig();
    if config == null {
      return null;
    }
    ghost var d := Spec.Load(configFile, stateFile, backend.runner.world, stuck, dropped).value;
    service := new Service(backend, d, parsed.value, config.Value(), configFile, stateFile);
  }

  /** NewService on a host without a config file: the defaults are written first, and without them there is
      no service. What is in memory then is what the file loads to. */
  method CreateService(backend: SystemBackend, stateFile: State) returns (service: Service?)
    modifies backend.runner
    ensures service == null <==> Fails(old(backend.runner.world))
    ensures backend.runner.world == Wait(old(backend.runner.world))
    ensures service != null ==>
              && fresh(service) && service.backend == backend
              && Migration.InSync(Migration.Store(service.document.Value(), service.configFile))
              && service.document.Value() == DocumentFromConfig(BLANK_CONFIG, FORMAT_LEGACY)
              && service.config.Value() == BLANK_CONFIG && service.state.doc == stateFile
  {
    hide DocumentFromConfig, ConfigReasons, ParseDocument, EncodeLegacy, ConfigDefaults;
    Migration.FreshStoreInSync();
    Migration.BlankIsValid();
    var raw := SaveConfig(BLANK_CONFIG);
    var ok := !Fails(backend.runner.world);
    backend.runner.world := Wait(backend.runner.world);
    if !ok {
      return null;
    }
    var document := DocumentFromConfig(BLANK_CONFIG, FORMAT_LEGACY);
    ghost var d := Daemon(document, BLANK_CONFIG, stateFile, None, raw.value, stateFile, backend.runner.world, {}, {});
    service := new Service(backend, d, document, BLANK_CONFIG, raw.value, stateFile);
  }

  /** Filling in defaults before checking makes no difference. */
  lemma DefaultsThenCheck(d: Document)
    ensures Checked(DocumentDefaults(d)) == Checked(d) && DocumentReasons(DocumentDefaults(d)) == DocumentReasons(d)
  {
    hide CheckedReasons, Refreshed;
    DocumentDefaultsTwice(d);
    hide DocumentDefaults;
  }

  lemma DocumentDefaultsTwice(d: Document)
    ensures DocumentDefaults(DocumentDefaults(d)) == DocumentDefaults(d)
  {
    RoundTrips.FormatNamesNotBlank();
    assert !IsSpace(DEFAULT_PROFILE_ID[0]);
    var e := DocumentDefaults(d);
    forall i | 0 <= i < |d.profiles|
      ensures ProfileDefaults(e.profiles[i].config) == e.profiles[i].config && ServerDefaults(e.server) == e.server
    {
      DefaultsIdempotent(d.profiles[i].config, d.server);
    }
    DefaultsIdempotent(ProfilePart(BLANK_CONFIG), d.server);
    hide ProfileDefaults, ServerDefaults, IsBlank;
    assert DefaultAll(e.profiles) == e.profiles;
  }

  /** Of the state before a reconcile only the recorded footprint matters. */
  lemma SameAfter(s: State, t: State, d: Document, reasons: seq<Reason>, p: Pass)
    requires s.applied == t.applied
    ensures StateAfter(s, d, reasons, p) == StateAfter(t, d, reasons, p)
  {
    hide PassTroubles, PhaseAfter, ActiveName, ActiveBroker, MTUAfter;
  }
}
