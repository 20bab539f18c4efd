/** The control service: what one locked section does to the daemon's memory, its two files and the
    kernel. A write to disk, and the start of the advertiser, take one instant of the oracle's clock
    and fail when the oracle says so. */
module Daemon {
  import opened Options
  import opened Addresses
  import opened Kernel
  import opened Config
  import opened Storage
  import opened Backend
  import opened TeardownLaws
  import opened Advertising
  import Migration

  // ---------------------------------------------------------------- state

  datatype Phase = Idle | Reconciling | Ready | Degraded | Down

  datatype Fault =
    | BackendFault(backend: Failure)
    | AdvertiserFault(advertiser: AdvertiserFailure)
    | StateNotSaved
    | ConfigNotSaved
    | ConfigInvalid(reasons: seq<Reason>)
    | NoActiveProfile(id: string)

  /** Why the service is not all well; `Missing` reports an address, `Failed` an error's message. */
  datatype Trouble =
    | Invalid(reason: Reason)
    | AddressMissing(address: MissingAddress)
    | Failed(fault: Fault)
    | ProbeFailed

  /** The persisted observed state, times left out. */
  datatype State = State(
    tunnelUp: bool, localIPv6: PrefixText, effectiveMTU: int, wan4: string,
    activeProfileID: string, activeProfileName: string, activeBroker: string,
    networks: seq<NetworkStatus>, pingOK: bool, pingMs: int,
    configValid: bool, desiredEnabled: bool, phase: Phase,
    lastError: Option<Trouble>, troubles: seq<Trouble>, applied: AppliedState)

  const DEFAULT_STATE: State :=
    State(false, NoPrefix(""), 0, "", "", "", "", [], false, 0, false, false, Idle, None, [], NOTHING_APPLIED)

  /** The daemon with its files and the kernel. Of the past it remembers, for the sake of the theorems
      only, why things it installed are in the kernel although nothing records them: a teardown failed
      to delete them, or the state that recorded them was dropped. */
  datatype Daemon = Daemon(
    document: Document, config: Config, state: State, advertiser: Option<Advertiser>,
    configFile: Raw, stateFile: State, world: World,
    stuck: set<Item>, dropped: set<Item>)

  datatype Result = Result(daemon: Daemon, err: Option<Fault>)

  // ---------------------------------------------------------------- lists of troubles

  function AddOnce<T(==)>(s: seq<T>, x: T): seq<T> {
    if x in s then s else s + [x]
  }

  function AddAllOnce<T(==)>(s: seq<T>, xs: seq<T>): seq<T>
    decreases |xs|
  {
    if xs == [] then s else AddAllOnce(AddOnce(s, xs[0]), xs[1..])
  }

  function AddFault(s: seq<Trouble>, fault: Option<Fault>): seq<Trouble> {
    if fault.None? then s else AddOnce(s, Failed(fault.value))
  }

  function InvalidTroubles(reasons: seq<Reason>): (s: seq<Trouble>)
    ensures |s| == |reasons|
    ensures forall i :: 0 <= i < |s| ==> s[i] == Invalid(reasons[i])
  {
    seq(|reasons|, i requires 0 <= i < |reasons| => Invalid(reasons[i]))
  }

  function MissingTroubles(missing: seq<MissingAddress>): (s: seq<Trouble>)
    ensures |s| == |missing|
    ensures forall i :: 0 <= i < |s| ==> s[i] == AddressMissing(missing[i])
  {
    seq(|missing|, i requires 0 <= i < |missing| => AddressMissing(missing[i]))
  }

  function First(s: seq<Trouble>): Option<Trouble> {
    if s == [] then None else Some(s[0])
  }

  function WithoutMissing(s: seq<Trouble>): seq<Trouble> {
    if s == [] then [] else (if s[0].AddressMissing? then [] else [s[0]]) + WithoutMissing(s[1..])
  }

  function WithoutProbe(s: seq<Trouble>): seq<Trouble> {
    if s == [] then [] else (if s[0].ProbeFailed? then [] else [s[0]]) + WithoutProbe(s[1..])
  }

  function ReplaceMissing(s: seq<Trouble>, missing: seq<MissingAddress>): seq<Trouble> {
    AddAllOnce(WithoutMissing(s), MissingTroubles(missing))
  }

  // ---------------------------------------------------------------- disk and advertiser

  /** One instant passes. */
  function Wait(w: World): World {
    w.(now := w.now + 1)
  }

  predicate Fails(w: World) {
    w.fate(w.now).fails
  }

  datatype Started = Started(world: World, advertiser: Option<Advertiser>, err: Option<AdvertiserFailure>)

  function StartAdvertiser(w: World, c: Config): Started {
    match Plan(c)
    case Bad(f) => Started(w, None, Some(f))
    case Good(a) => if Fails(w) then Started(Wait(w), None, Some(StartFailed)) else Started(Wait(w), Some(a), None)
  }

  /** SaveState: the file keeps its old content when the write fails. */
  function SaveState(d: Daemon): Result {
    var d' := d.(world := Wait(d.world));
    if Fails(d.world) then Result(d', Some(StateNotSaved)) else Result(d'.(stateFile := d.state), None)
  }

  // ---------------------------------------------------------------- reconcile

  /** Everything the data plane said during one reconcile. */
  datatype Pass = Pass(
    world: World, config: Config, advertiser: Option<Advertiser>,
    backendErr: Option<Failure>, advertiserErr: Option<AdvertiserFailure>, observeErr: Option<Failure>,
    observation: Observation, probe: ProbeResult)

  predicate Wanted(c: Config, valid: bool) {
    valid && c.tunnel.enabled
  }

  predicate Advertises(c: Config) {
    c.lan.enabled && c.lan.networks != []
  }

  predicate Probes(c: Config) {
    c.health.enabled && c.health.target != NoAddress("")
  }

  function StartIf(on: bool, w: World, c: Config): Started {
    if on then StartAdvertiser(w, c) else Started(w, None, None)
  }

  function ProbeIf(on: bool, w: World): Probed {
    if on then Probe(w) else Probed(w, ProbeResult(false, 0))
  }

  function ObserveFor(w: World, c: Config, valid: bool): Observed {
    Observe(w, c.server.wanInterface, if Wanted(c, valid) then Some(c) else None)
  }

  function RunPass(w: World, c: Config, valid: bool, applied: AppliedState): Pass {
    var r := Reconcile(w, c, valid, applied);
    var a := StartIf(r.err.None? && Wanted(r.config, valid) && Advertises(r.config), r.world, r.config);
    var o := ObserveFor(a.world, r.config, valid);
    var p := ProbeIf(Wanted(r.config, valid) && Probes(r.config), o.world);
    Pass(p.world, r.config, a.advertiser, r.err, a.err, o.err, o.observation, p.result)
  }

  function OfBackend(f: Option<Failure>): Option<Fault> {
    if f.None? then None else Some(BackendFault(f.value))
  }

  function OfAdvertiser(f: Option<AdvertiserFailure>): Option<Fault> {
    if f.None? then None else Some(AdvertiserFault(f.value))
  }

  function PassTroubles(reasons: seq<Reason>, p: Pass): seq<Trouble> {
    var t :=
      AddFault(AddFault(AddFault(
        AddAllOnce(InvalidTroubles(reasons), MissingTroubles(p.observation.missing)),
        OfBackend(p.backendErr)), OfAdvertiser(p.advertiserErr)), OfBackend(p.observeErr));
    if p.config.tunnel.enabled && p.config.health.enabled && !p.probe.pingOk then AddOnce(t, ProbeFailed) else t
  }

  predicate PassFailed(p: Pass) {
    p.backendErr.Some? || p.advertiserErr.Some? || p.observeErr.Some? || p.observation.missing != []
  }

  function PhaseAfter(reasons: seq<Reason>, p: Pass): Phase {
    if !p.config.tunnel.enabled then Down
    else if reasons != [] || PassFailed(p) || !p.observation.tunnelUp then Degraded
    else Ready
  }

  function AppliedAfter(before: AppliedState, reasons: seq<Reason>, p: Pass): AppliedState {
    if !p.config.tunnel.enabled then NOTHING_APPLIED
    else if reasons != [] then before
    else BuildApplied(p.config)
  }

  function ActiveName(doc: Document): string {
    var active := ActiveProfile(doc);
    if active.Some? then active.value.name else ""
  }

  function ActiveBroker(doc: Document): string {
    var active := ActiveProfile(doc);
    if active.Some? then active.value.config.tunnel.broker else ""
  }

  /** The MTU reported: none while there is no tunnel to speak of. */
  function MTUAfter(valid: bool, p: Pass): int {
    if Wanted(p.config, valid) && p.config.tunnel.mtu > 0 then p.config.tunnel.mtu else 0
  }

  predicate Pingless(p: Pass) {
    p.config.health.enabled && !p.config.tunnel.enabled
  }

  function StateAfter(before: State, doc: Document, reasons: seq<Reason>, p: Pass): State {
    var troubles := PassTroubles(reasons, p);
    State(
      p.observation.tunnelUp,
      p.config.tunnel.localIPv6,
      MTUAfter(reasons == [], p),
      p.observation.wan4,
      doc.activeProfileID,
      ActiveName(doc),
      ActiveBroker(doc),
      if p.config.lan.enabled then StatusOf(p.config.lan.networks) else [],
      p.probe.pingOk && !Pingless(p),
      if Pingless(p) then 0 else p.probe.pingMs,
      reasons == [],
      doc.tunnelEnabled,
      PhaseAfter(reasons, p),
      First(troubles),
      troubles,
      AppliedAfter(before.applied, reasons, p))
  }

  /** The errors a reconcile returns: none for an invalid config, else the first of the three. */
  function PassFault(reasons: seq<Reason>, p: Pass): Option<Fault> {
    if reasons != [] then None
    else if p.backendErr.Some? then OfBackend(p.backendErr)
    else if p.advertiserErr.Some? then OfAdvertiser(p.advertiserErr)
    else OfBackend(p.observeErr)
  }

  /** The items of the recorded footprint that a teardown fails to delete. */
  function StuckItems(w: World, applied: AppliedState): set<Item> {
    set item | item in Teardown(w, applied).owned && InFootprint(item, applied)
  }

  /** The daemon installed the item, it is still there, and the recorded footprint does not cover it. */
  predicate Lost(d: Daemon, item: Item) {
    item in d.world.owned && !InFootprint(item, d.state.applied)
  }

  /** What is recorded in the state and still there. */
  function Recorded(d: Daemon): set<Item> {
    set item <- d.world.owned | InFootprint(item, d.state.applied)
  }

  /** Forgets what is gone or recorded again. */
  function Pruned(d: Daemon): Daemon {
    d.(stuck := (set item <- d.stuck | Lost(d, item)), dropped := (set item <- d.dropped | Lost(d, item)))
  }

  function AfterPass(d: Daemon, p: Pass): Daemon {
    Pruned(d.(state := StateAfter(d.state, d.document, ConfigReasons(d.config), p),
       advertiser := p.advertiser,
       world := p.world,
       stuck := d.stuck + StuckItems(d.world, d.state.applied)))
  }

  function ReconcileLocked(d: Daemon): Result {
    var reasons := ConfigReasons(d.config);
    var p := RunPass(d.world, d.config, reasons == [], d.state.applied);
    var s := SaveState(AfterPass(d, p));
    if s.err.Some? then s else Result(s.daemon, PassFault(reasons, p))
  }

  // ---------------------------------------------------------------- updates

  /** Puts the old document, config and state back; what was recorded for the failed config is lost. */
  function Restored(d: Daemon, prior: Daemon): Daemon {
    d.(document := prior.document, config := prior.config, state := prior.state)
  }

  /** The daemon in which a rollback reconciles. */
  function RolledBack(d: Daemon, prior: Daemon): Daemon {
    Pruned(Restored(d, prior).(dropped := d.dropped + Recorded(d)))
  }

  /** rollbackConfigUpdateLocked: restore, reconcile, and restore once more if that fails. */
  function Rollback(d: Daemon, prior: Daemon): Daemon {
    var r := ReconcileLocked(RolledBack(d, prior));
    if r.err.None? then r.daemon else SaveState(Restored(r.daemon, prior)).daemon
  }

  /** The daemon with the proposed document in place, before the data plane has seen it. */
  function Adopt(d: Daemon, doc: Document, c: Config): Daemon {
    d.(document := doc, config := c)
  }

  function SaveConfigFile(d: Daemon): Result {
    match SaveDocument(d.document)
    case None => Result(d, Some(ConfigInvalid(DocumentReasons(d.document))))
    case Some(raw) =>
      var d' := d.(world := Wait(d.world));
      if Fails(d.world) then Result(d', Some(ConfigNotSaved)) else Result(d'.(configFile := raw), None)
  }

  function UpdateConfigDocument(d: Daemon, proposed: Document): Result {
    var next := Migration.PreservePort(proposed, d.document);
    if !ValidDocument(next) then Result(d, Some(ConfigInvalid(DocumentReasons(next))))
    else
      var doc := Checked(next);
      match ActiveConfig(doc)
      case None => Result(d, Some(NoActiveProfile(doc.activeProfileID)))
      case Some(c) =>
        var r := ReconcileLocked(Adopt(d, doc, c));
        if r.err.Some? then Result(Rollback(r.daemon, d), r.err)
        else
          var s := SaveConfigFile(r.daemon);
          if s.err.Some? then Result(Rollback(s.daemon, d), s.err) else s
  }

  /** UpdateConfig: the active profile rewritten. */
  function UpdateConfig(d: Daemon, c: Config): Result {
    match PutConfig(d.document, c)
    case None => Result(d, Some(NoActiveProfile(d.document.activeProfileID)))
    case Some(doc) => UpdateConfigDocument(d, doc)
  }

  /** Up and Down, nothing coming between their two sections. */
  function SetEnabled(d: Daemon, on: bool): Result {
    UpdateConfigDocument(d, d.document.(tunnelEnabled := on))
  }

  // ---------------------------------------------------------------- health

  predicate ShouldRetry(d: Daemon) {
    d.document.tunnelEnabled && d.state.phase != Ready && ValidConfig(d.config)
  }

  /** What a health check saw, between its two sections. */
  datatype Sight = Sight(config: Config, observation: Observation, observeErr: Option<Failure>, probe: ProbeResult)

  datatype Seen = Seen(world: World, sight: Sight)

  function Look(w: World, c: Config): Seen {
    var o := ObserveFor(w, c, ValidConfig(c));
    var p := ProbeIf(Probes(c), o.world);
    Seen(p.world, Sight(c, o.observation, o.err, p.result))
  }

  function SightTroubles(before: seq<Trouble>, s: Sight): seq<Trouble> {
    var t := AddFault(ReplaceMissing(before, s.observation.missing), OfBackend(s.observeErr));
    if !s.config.health.enabled then t
    else if s.probe.pingOk then WithoutProbe(t)
    else if s.config.tunnel.enabled then AddOnce(t, ProbeFailed)
    else t
  }

  /** The second section of a health check; the config it saw may be out of date by now. */
  function StateAfterSight(before: State, s: Sight): State {
    var troubles := SightTroubles(before.troubles, s);
    before.(
      wan4 := if s.observeErr.None? then s.observation.wan4 else before.wan4,
      tunnelUp := if s.observeErr.None? then s.observation.tunnelUp else before.tunnelUp,
      pingOK := s.probe.pingOk,
      pingMs := s.probe.pingMs,
      troubles := troubles,
      phase := if s.observeErr.Some? || s.observation.missing != [] then Degraded else before.phase,
      lastError := First(troubles))
  }

  function WriteBack(d: Daemon, s: Sight): Result {
    SaveState(d.(state := StateAfterSight(d.state, s)))
  }

  /** The outcome of the lightweight repair that goes into the state. */
  function StateAfterRepair(before: State, repairErr: Option<Failure>, o: Observed): State {
    var troubles := AddFault(AddFault(ReplaceMissing(before.troubles, o.observation.missing), OfBackend(repairErr)), OfBackend(o.err));
    before.(
      troubles := troubles,
      phase :=
        if repairErr.Some? || o.err.Some? || o.observation.missing != [] then Degraded
        else if o.observation.tunnelUp && troubles == [] then Ready
        else before.phase,
      lastError := First(troubles))
  }

  function Repair(d: Daemon): Result {
    var c := d.config;
    if !ValidConfig(c) || !c.tunnel.enabled then Result(d, None)
    else
      var r := RepairAddresses(d.world, c);
      var o := Observe(r.world, c.server.wanInterface, Some(c));
      var s := SaveState(Pruned(d.(world := o.world, state := StateAfterRepair(d.state, r.err, o))));
      if s.err.Some? then s else Result(s.daemon, if r.err.Some? then OfBackend(r.err) else OfBackend(o.err))
  }

  /** What follows a health check that may restart things: a reconcile after a failed probe, a repair
      for a missing address, a reconcile if the repair fails. */
  function Recover(d: Daemon, s: Sight): Result {
    if !(s.config.health.autoRestart && s.config.tunnel.enabled && ValidConfig(s.config)) then Result(d, None)
    else if s.config.health.enabled && !s.probe.pingOk then ReconcileLocked(d)
    else if s.observation.missing != [] then
      var r := Repair(d);
      if r.err.Some? then ReconcileLocked(r.daemon) else r
    else Result(d, None)
  }

  /** A health check with nothing coming between its sections. */
  function HealthCheck(d: Daemon, mayRestart: bool): Result {
    var seen := Look(d.world, d.config);
    var s := WriteBack(d.(world := seen.world), seen.sight);
    if s.err.Some? || !mayRestart then s else Recover(s.daemon, seen.sight)
  }

  /** One turn of the health loop. */
  function Tick(d: Daemon): Daemon {
    if ShouldRetry(d) then ReconcileLocked(d).daemon else HealthCheck(d, true).daemon
  }

  // ---------------------------------------------------------------- start

  /** NewService with a stored config: the recorded state is whatever was last saved. */
  function Load(configFile: Raw, stateFile: State, w: World, stuck: set<Item>, dropped: set<Item>): Option<Daemon> {
    match ParseDocument(configFile)
    case None => None
    case Some(doc) =>
      match ActiveConfig(doc)
      case None => None
      case Some(c) => Some(Pruned(Daemon(doc, c, stateFile, None, configFile, stateFile, w, stuck, dropped)))
  }
}
