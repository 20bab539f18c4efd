/** The reported status never claims more than is so. */
module StatusLaws {
  import opened Options
  import opened Config
  import opened ConfigLaws
  import opened Backend
  import opened Daemon

  /** Ready means: wanted, valid, and at most the health probe to complain about. The last error is
      the first trouble and no trouble is listed twice. */
  ghost predicate Sound(s: State) {
    && s.lastError == First(s.troubles)
    && Distinct(s.troubles)
    && (s.phase == Ready ==> s.desiredEnabled && s.configValid && OnlyProbe(s.troubles))
  }

  predicate OnlyProbe(troubles: seq<Trouble>) {
    forall i :: 0 <= i < |troubles| ==> troubles[i] == ProbeFailed
  }

  // ---------------------------------------------------------------- lists without repetition

  lemma AddOnceDistinct<T>(s: seq<T>, x: T)
    requires Distinct(s)
    ensures Distinct(AddOnce(s, x))
  {
  }

  lemma {:induction false} AddAllOnceDistinct<T>(s: seq<T>, xs: seq<T>)
    requires Distinct(s)
    ensures Distinct(AddAllOnce(s, xs))
    decreases |xs|
  {
    if xs != [] {
      AddOnceDistinct(s, xs[0]);
      AddAllOnceDistinct(AddOnce(s, xs[0]), xs[1..]);
    }
  }

  lemma AddFaultDistinct(s: seq<Trouble>, f: Option<Fault>)
    requires Distinct(s)
    ensures Distinct(AddFault(s, f))
  {
    if f.Some? {
      AddOnceDistinct(s, Failed(f.value));
    }
  }

  lemma InvalidDistinct(reasons: seq<Reason>)
    requires Distinct(reasons)
    ensures Distinct(InvalidTroubles(reasons))
  {
  }

  lemma WithoutMissingMembers(s: seq<Trouble>, t: Trouble)
    ensures t in WithoutMissing(s) <==> t in s && !t.AddressMissing?
  {
  }

  lemma WithoutProbeMembers(s: seq<Trouble>, t: Trouble)
    ensures t in WithoutProbe(s) <==> t in s && !t.ProbeFailed?
  {
  }

  lemma DistinctTail<T>(s: seq<T>)
    requires Distinct(s) && s != []
    ensures Distinct(s[1..]) && s[0] !in s[1..]
  {
  }

  lemma DistinctCons<T>(x: T, s: seq<T>)
    requires Distinct(s) && x !in s
    ensures Distinct([x] + s)
  {
  }

  lemma {:induction false} WithoutMissingDistinct(s: seq<Trouble>)
    requires Distinct(s)
    ensures Distinct(WithoutMissing(s))
  {
    if s != [] {
      DistinctTail(s);
      WithoutMissingDistinct(s[1..]);
      WithoutMissingMembers(s[1..], s[0]);
      assert [] + WithoutMissing(s[1..]) == WithoutMissing(s[1..]);
      if !s[0].AddressMissing? {
        DistinctCons(s[0], WithoutMissing(s[1..]));
      }
    }
  }

  lemma {:induction false} WithoutProbeDistinct(s: seq<Trouble>)
    requires Distinct(s)
    ensures Distinct(WithoutProbe(s))
  {
    if s != [] {
      DistinctTail(s);
      WithoutProbeDistinct(s[1..]);
      WithoutProbeMembers(s[1..], s[0]);
      assert [] + WithoutProbe(s[1..]) == WithoutProbe(s[1..]);
      if !s[0].ProbeFailed? {
        DistinctCons(s[0], WithoutProbe(s[1..]));
      }
    }
  }

  lemma ReplaceMissingDistinct(s: seq<Trouble>, missing: seq<MissingAddress>)
    requires Distinct(s)
    ensures Distinct(ReplaceMissing(s, missing))
  {
    WithoutMissingDistinct(s);
    AddAllOnceDistinct(WithoutMissing(s), MissingTroubles(missing));
  }

  // ---------------------------------------------------------------- after a reconcile

  lemma PassTroublesDistinct(reasons: seq<Reason>, p: Pass)
    requires Distinct(reasons)
    ensures Distinct(PassTroubles(reasons, p))
  {
    hide AddOnce, AddAllOnce, AddFault, Distinct;
    InvalidDistinct(reasons);
    var t := AddAllOnce(InvalidTroubles(reasons), MissingTroubles(p.observation.missing));
    AddAllOnceDistinct(InvalidTroubles(reasons), MissingTroubles(p.observation.missing));
    AddFaultDistinct(t, OfBackend(p.backendErr));
    var u := AddFault(t, OfBackend(p.backendErr));
    AddFaultDistinct(u, OfAdvertiser(p.advertiserErr));
    var v := AddFault(u, OfAdvertiser(p.advertiserErr));
    AddFaultDistinct(v, OfBackend(p.observeErr));
    AddOnceDistinct(AddFault(v, OfBackend(p.observeErr)), ProbeFailed);
  }

  /** Nothing went wrong: at most the probe is reported. */
  lemma CleanPassTroubles(p: Pass)
    requires !PassFailed(p)
    ensures OnlyProbe(PassTroubles([], p))
  {
    assert InvalidTroubles([]) == [];
    assert MissingTroubles(p.observation.missing) == [];
  }

  /** The state after a reconcile is sound, whatever the data plane said and whatever was there before. */
  lemma StateAfterSound(before: State, doc: Document, reasons: seq<Reason>, p: Pass)
    requires Distinct(reasons) && p.config.tunnel.enabled == doc.tunnelEnabled
    ensures Sound(StateAfter(before, doc, reasons, p))
  {
    PassTroublesDistinct(reasons, p);
    if reasons == [] && !PassFailed(p) {
      CleanPassTroubles(p);
    }
    hide PassTroubles, Distinct, OnlyProbe, ActiveProfile;
  }

  // ---------------------------------------------------------------- after a health check

  lemma SightTroublesDistinct(before: seq<Trouble>, s: Sight)
    requires Distinct(before)
    ensures Distinct(SightTroubles(before, s))
  {
    hide AddOnce, AddFault, Distinct, WithoutProbe, ReplaceMissing;
    ReplaceMissingDistinct(before, s.observation.missing);
    AddFaultDistinct(ReplaceMissing(before, s.observation.missing), OfBackend(s.observeErr));
    var t := AddFault(ReplaceMissing(before, s.observation.missing), OfBackend(s.observeErr));
    WithoutProbeDistinct(t);
    AddOnceDistinct(t, ProbeFailed);
  }

  lemma {:induction false} OnlyProbeFiltered(s: seq<Trouble>)
    requires OnlyProbe(s)
    ensures WithoutMissing(s) == s && WithoutProbe(s) == []
  {
    if s != [] {
      assert OnlyProbe(s[1..]);
      OnlyProbeFiltered(s[1..]);
      assert [s[0]] + s[1..] == s;
    }
  }

  /** A health check that found everything in place reports at most the probe. */
  lemma CleanSightTroubles(before: seq<Trouble>, s: Sight)
    requires OnlyProbe(before) && s.observeErr.None? && s.observation.missing == []
    ensures OnlyProbe(SightTroubles(before, s))
  {
    OnlyProbeFiltered(before);
    assert MissingTroubles([]) == [];
    assert ReplaceMissing(before, []) == before;
  }

  /** Writing back what a health check saw keeps the state sound, even when the check looked with a
      config that is no longer current, and whatever it saw. */
  lemma StateAfterSightSound(before: State, s: Sight)
    requires Sound(before)
    ensures Sound(StateAfterSight(before, s))
  {
    SightTroublesDistinct(before.troubles, s);
    if before.phase == Ready && s.observeErr.None? && s.observation.missing == [] {
      CleanSightTroubles(before.troubles, s);
    }
    hide SightTroubles, Distinct, OnlyProbe;
  }

  /** A repair keeps it sound, provided it runs for a valid and wanted config. */
  lemma StateAfterRepairSound(before: State, repairErr: Option<Failure>, o: Observed)
    requires Sound(before) && before.configValid && before.desiredEnabled
    ensures Sound(StateAfterRepair(before, repairErr, o))
  {
    hide AddFault, Distinct, ReplaceMissing;
    ReplaceMissingDistinct(before.troubles, o.observation.missing);
    var t := ReplaceMissing(before.troubles, o.observation.missing);
    AddFaultDistinct(t, OfBackend(repairErr));
    AddFaultDistinct(AddFault(t, OfBackend(repairErr)), OfBackend(o.err));
    if before.phase == Ready && repairErr.None? && o.err.None? && o.observation.missing == [] {
      CleanRepairTroubles(before.troubles);
    }
    hide OnlyProbe;
    assert OnlyProbe([]);
  }

  lemma CleanRepairTroubles(before: seq<Trouble>)
    requires OnlyProbe(before)
    ensures OnlyProbe(AddFault(AddFault(ReplaceMissing(before, []), OfBackend(None)), OfBackend(None)))
  {
    OnlyProbeFiltered(before);
    assert MissingTroubles([]) == [];
  }
}
