/** The observed state as the object that reconciles, health checks and repairs update in place. */
module StateDocument {
  import opened Options
  import opened Kernel
  import opened Config
  import opened Backend
  import opened Records
  import opened Daemon
  import Values = Config

  // ---------------------------------------------------------------- lists of troubles

  method AppendEach(s: seq<Trouble>, xs: seq<Trouble>) returns (r: seq<Trouble>)
    ensures r == AddAllOnce(s, xs)
  {
    r := s;
    assert xs[0..] == xs;
    for i := 0 to |xs|
      invariant AddAllOnce(r, xs[i..]) == AddAllOnce(s, xs)
    {
      assert xs[i..][0] == xs[i] && xs[i..][1..] == xs[i + 1..];
      if xs[i] !in r {
        r := r + [xs[i]];
      }
    }
    assert xs[|xs|..] == [];
  }

  lemma MissingStep(s: seq<Trouble>, i: nat)
    requires i < |s|
    ensures WithoutMissing(s[i..]) == (if s[i].AddressMissing? then [] else [s[i]]) + WithoutMissing(s[i + 1..])
    ensures WithoutProbe(s[i..]) == (if s[i].ProbeFailed? then [] else [s[i]]) + WithoutProbe(s[i + 1..])
  {
    assert s[i..][0] == s[i] && s[i..][1..] == s[i + 1..];
  }

  lemma NothingLeft(s: seq<Trouble>)
    ensures WithoutMissing(s[|s|..]) == [] && WithoutProbe(s[|s|..]) == [] && s[0..] == s
  {
  }

  method ReplaceManagedReasons(s: seq<Trouble>, missing: seq<MissingAddress>) returns (r: seq<Trouble>)
    ensures r == ReplaceMissing(s, missing)
  {
    hide WithoutMissing, AddAllOnce;
    var filtered: seq<Trouble> := [];
    NothingLeft(s);
    for i := 0 to |s|
      invariant filtered + WithoutMissing(s[i..]) == WithoutMissing(s)
    {
      MissingStep(s, i);
      if s[i].AddressMissing? {
        continue;
      }
      filtered := filtered + [s[i]];
    }
    assert filtered == WithoutMissing(s);
    r := AppendEach(filtered, MissingTroubles(missing));
  }

  method RemoveProbeReason(s: seq<Trouble>) returns (r: seq<Trouble>)
    ensures r == WithoutProbe(s)
  {
    hide WithoutProbe;
    r := [];
    NothingLeft(s);
    for i := 0 to |s|
      invariant r + WithoutProbe(s[i..]) == WithoutProbe(s)
    {
      MissingStep(s, i);
      if s[i].ProbeFailed? {
        continue;
      }
      r := r + [s[i]];
    }
  }

  /** The troubles after a health check. */
  method TroublesAfterSight(before: seq<Trouble>, s: Sight) returns (t: seq<Trouble>)
    ensures t == SightTroubles(before, s)
  {
    hide ReplaceMissing, WithoutProbe, AddFault;
    t := ReplaceManagedReasons(before, s.observation.missing);
    t := AddFault(t, OfBackend(s.observeErr));
    if s.config.health.enabled {
      if s.probe.pingOk {
        t := RemoveProbeReason(t);
      } else if ProbeFailed !in t && s.config.tunnel.enabled {
        t := t + [ProbeFailed];
      }
    }
  }

  // ---------------------------------------------------------------- the state document

  /** The observed state: a record of values, changed in place one field after the other. */
  class StateRecord {
    var doc: State

    constructor (s: State)
      ensures doc == s
    {
      doc := s;
    }

    method Clone() returns (clone: StateRecord)
      ensures fresh(clone) && clone.doc == doc
    {
      clone := new StateRecord(doc);
    }

    /** The fields a reconcile sets before it touches the data plane. */
    method BeginReconcile(document: DocumentRecord, valid: bool)
      modifies this
      ensures var d := document.Value();
              doc == old(doc).(desiredEnabled := d.tunnelEnabled, activeProfileID := d.activeProfileID, activeProfileName := ActiveName(d),
                               activeBroker := ActiveBroker(d), configValid := valid, phase := Reconciling)
    {
      hide Values.ActiveProfile;
      doc := doc.(desiredEnabled := document.tunnelEnabled);
      doc := doc.(activeProfileID := document.activeProfileID);
      doc := doc.(activeProfileName := "", activeBroker := "");
      var active := document.ActiveProfile();
      if active.Some? {
        doc := doc.(activeProfileName := active.value.name, activeBroker := active.value.config.tunnel.broker);
      }
      doc := doc.(configValid := valid);
      doc := doc.(phase := Reconciling);
    }

    /** What the data plane showed during a reconcile. */
    method RecordPass(valid: bool, p: Pass)
      modifies this
      ensures doc == old(doc).(
                wan4 := p.observation.wan4, localIPv6 := p.config.tunnel.localIPv6, effectiveMTU := MTUAfter(valid, p),
                networks := StatusOf(p.config.lan.networks), tunnelUp := p.observation.tunnelUp,
                pingOK := p.probe.pingOk, pingMs := p.probe.pingMs)
    {
      doc := doc.(wan4 := p.observation.wan4);
      doc := doc.(localIPv6 := p.config.tunnel.localIPv6);
      doc := doc.(effectiveMTU := 0);
      if valid && p.config.tunnel.enabled && p.config.tunnel.mtu > 0 {
        doc := doc.(effectiveMTU := p.config.tunnel.mtu);
      }
      doc := doc.(networks := BuildApplied(p.config).networks);
      doc := doc.(tunnelUp := p.observation.tunnelUp);
      doc := doc.(pingOK := p.probe.pingOk);
      doc := doc.(pingMs := p.probe.pingMs);
    }

    /** Collects the troubles of a reconcile in their order, none twice. */
    method CollectTroubles(reasons: seq<Reason>, p: Pass)
      modifies this
      ensures doc == old(doc).(troubles := PassTroubles(reasons, p), lastError := First(PassTroubles(reasons, p)))
    {
      var t := AppendEach(InvalidTroubles(reasons), MissingTroubles(p.observation.missing));
      t := AddFault(t, OfBackend(p.backendErr));
      t := AddFault(t, OfAdvertiser(p.advertiserErr));
      t := AddFault(t, OfBackend(p.observeErr));
      if p.config.tunnel.enabled && p.config.health.enabled && !p.probe.pingOk {
        if ProbeFailed !in t {
          t := t + [ProbeFailed];
        }
      }
      doc := doc.(troubles := t);
      doc := doc.(lastError := First(t));
    }

    /** The verdict of a reconcile, and what is from now on recorded as applied. */
    method Settle(reasons: seq<Reason>, p: Pass)
      modifies this
      ensures doc == old(doc).(phase := PhaseAfter(reasons, p), applied := AppliedAfter(old(doc).applied, reasons, p))
    {
      if !p.config.tunnel.enabled {
        doc := doc.(phase := Down, applied := NOTHING_APPLIED);
      } else if |reasons| > 0 {
        doc := doc.(phase := Degraded);
      } else if p.backendErr.Some? || p.advertiserErr.Some? || p.observeErr.Some? || |p.observation.missing| > 0 {
        doc := doc.(phase := Degraded, applied := BuildApplied(p.config));
      } else if p.observation.tunnelUp {
        doc := doc.(phase := Ready, applied := BuildApplied(p.config));
      } else {
        doc := doc.(phase := Degraded, applied := BuildApplied(p.config));
      }
    }

    /** What is not shown while LAN or the tunnel is off. */
    method ClearUnused(p: Pass)
      modifies this
      ensures doc == old(doc).(
                networks := if p.config.lan.enabled then old(doc).networks else [],
                pingOK := old(doc).pingOK && !Pingless(p),
                pingMs := if Pingless(p) then 0 else old(doc).pingMs)
    {
      if !p.config.lan.enabled {
        doc := doc.(networks := []);
      }
      if p.config.health.enabled && !p.config.tunnel.enabled {
        doc := doc.(pingOK := false, pingMs := 0);
      }
    }

    /** Records what came of a reconcile. */
    method EndReconcile(ghost d: Document, reasons: seq<Reason>, p: Pass)
      requires Begun(doc, d, reasons == [])
      modifies this
      ensures doc == StateAfter(old(doc), d, reasons, p)
    {
      hide PassTroubles, PhaseAfter, AppliedAfter, ActiveName, ActiveBroker, MTUAfter, Pingless, First;
      RecordPass(|reasons| == 0, p);
      CollectTroubles(reasons, p);
      Settle(reasons, p);
      ClearUnused(p);
    }

    /** The second section of a health check. */
    method Record(s: Sight)
      modifies this
      ensures doc == StateAfterSight(old(doc), s)
    {
      hide SightTroubles, First;
      if s.observeErr.None? {
        doc := doc.(wan4 := s.observation.wan4, tunnelUp := s.observation.tunnelUp);
      }
      doc := doc.(pingOK := s.probe.pingOk, pingMs := s.probe.pingMs);
      var t := TroublesAfterSight(doc.troubles, s);
      doc := doc.(troubles := t);
      if s.observeErr.Some? || |s.observation.missing| > 0 {
        doc := doc.(phase := Degraded);
      }
      doc := doc.(lastError := First(t));
    }

    /** The outcome of a repair. */
    method RecordRepair(repairErr: Option<Failure>, observation: Observation, observeErr: Option<Failure>, ghost w: World)
      modifies this
      ensures doc == StateAfterRepair(old(doc), repairErr, Observed(w, observation, observeErr))
    {
      hide ReplaceMissing, AddFault, First;
      var t := ReplaceManagedReasons(doc.troubles, observation.missing);
      t := AddFault(t, OfBackend(repairErr));
      t := AddFault(t, OfBackend(observeErr));
      doc := doc.(troubles := t);
      if repairErr.None? && observeErr.None? && |observation.missing| == 0 {
        if observation.tunnelUp && |t| == 0 {
          doc := doc.(phase := Ready);
        }
      } else {
        doc := doc.(phase := Degraded);
      }
      doc := doc.(lastError := First(t));
    }
  }

  /** The state while a reconcile of the document is under way. */
  predicate Begun(s: State, d: Document, valid: bool) {
    && s.desiredEnabled == d.tunnelEnabled && s.configValid == valid && s.activeProfileID == d.activeProfileID
    && s.activeProfileName == ActiveName(d) && s.activeBroker == ActiveBroker(d)
  }
}
